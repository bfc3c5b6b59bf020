/**
 The durable file operations (src/durable_fs.rs:90-138) over one directory, with a
 failure or a crash possible between any two effects.
 */
module DurableFs {

  /** Where an operation stops: before the effect with this number, by an error the
      process survives, or by its death. */
  datatype Fault = NoFault | FailAt(effect: nat) | CrashAt(effect: nat, written: nat)

  datatype Outcome = Done | Failed | Died

  /** `partial` is what an interrupted write of `bytes` may have left in a file. */
  predicate IsPartial(partial: string, bytes: string) {
    |partial| <= |bytes| && partial == bytes[..|partial|]
  }

  /** The file `name` is the same in both directories. */
  predicate Same(before: map<string, string>, after: map<string, string>, name: string) {
    (name in after <==> name in before) && (name in after ==> after[name] == before[name])
  }

  class Directory {
    var files: map<string, string>

    constructor (files: map<string, string>)
      ensures this.files == files
    {
      this.files := files;
    }

    /** `create_new`: an existing file is never touched; otherwise the file is absent, holds
        part of the bytes, or holds all of them. */
    method CreateNew(name: string, bytes: string, fault: Fault) returns (outcome: Outcome)
      modifies this
      ensures forall other :: other != name ==> Same(old(files), files, other)
      ensures name in old(files) ==> outcome != Done && files == old(files)
      ensures outcome == Done ==> name in files && files[name] == bytes
      ensures name in files && name !in old(files) ==> IsPartial(files[name], bytes)
      ensures fault == NoFault && name !in old(files) ==> outcome == Done
    {
      if fault == FailAt(0) { return Failed; }
      if fault.CrashAt? && fault.effect == 0 { return Died; }
      if name in files { return Failed; }
      files := files[name := ""];
      if fault == FailAt(1) { return Failed; }
      if fault.CrashAt? && fault.effect == 1 {
        if fault.written <= |bytes| {
          files := files[name := bytes[..fault.written]];
        }
        return Died;
      }
      files := files[name := bytes];
      if fault.FailAt? && fault.effect <= 3 { return Failed; }
      if fault.CrashAt? && fault.effect <= 3 { return Died; }
      return Done;
    }

    /** `atomic_replace` through the temporary file `temp`. Whatever happens, the target holds
        its old contents or all of the new ones and no other file changes; only a crash leaves
        the temporary file behind, with part of the bytes. */
    method AtomicReplace(name: string, temp: string, bytes: string, fault: Fault) returns (outcome: Outcome)
      requires name != temp && temp !in files
      modifies this
      ensures forall other :: other != name && other != temp ==> Same(old(files), files, other)
      ensures (name in files && files[name] == bytes) || Same(old(files), files, name)
      ensures outcome == Done ==> name in files && files[name] == bytes
      ensures temp in files ==> outcome == Died && IsPartial(files[temp], bytes)
      ensures fault == NoFault ==> outcome == Done
    {
      outcome := ReplaceSteps(name, temp, bytes, fault);
      ghost var left := files;
      if outcome != Died && temp in files {
        files := files - {temp};
      }
      forall other | other != name && other != temp
        ensures Same(old(files), files, other)
      {
        assert Same(old(files), left, other);
      }
    }

    /** The effects of `atomic_replace` before its final clean-up. */
    method ReplaceSteps(name: string, temp: string, bytes: string, fault: Fault) returns (outcome: Outcome)
      requires name != temp && temp !in files
      modifies this
      ensures forall other :: other != name && other != temp ==> Same(old(files), files, other)
      ensures if temp in files
              then IsPartial(files[temp], bytes) && Same(old(files), files, name)
              else (name in files && files[name] == bytes) || files == old(files)
      ensures outcome == Done ==> temp !in files && name in files && files[name] == bytes
      ensures fault == NoFault ==> outcome == Done
    {
      if fault == FailAt(0) { return Failed; }
      if fault.CrashAt? && fault.effect == 0 { return Died; }
      files := files[temp := ""];
      if fault == FailAt(1) { return Failed; }
      if fault.CrashAt? && fault.effect == 1 {
        if fault.written <= |bytes| {
          files := files[temp := bytes[..fault.written]];
        }
        return Died;
      }
      files := files[temp := bytes];
      if fault.FailAt? && 2 <= fault.effect <= 3 { return Failed; }
      if fault.CrashAt? && 2 <= fault.effect <= 3 { return Died; }
      files := (files - {temp})[name := bytes];
      if fault.FailAt? && fault.effect == 4 { return Failed; }
      if fault.CrashAt? && fault.effect == 4 { return Died; }
      return Done;
    }
  }
}
