/**
 Path isolation (src/config.rs:587-634): the string tests of `reject_path_overlap`
 decide whether two locations are equal or nested, and the loops of
 `validate_path_isolation` compare every pair of locations a plan uses.
 */
module PathIsolation {
  import opened Common
  import opened Order
  import opened ConfigModel

  /** `reject_path_overlap`. */
  predicate Overlap(first: string, second: string) {
    first == second || StartsWithin(first, second) || StartsWithin(second, first)
  }

  /** `path` continues `parent` with a slash. */
  predicate StartsWithin(path: string, parent: string) {
    parent <= path && |parent| < |path| && path[|parent|] == '/'
  }

  // ---------------------------------------------------------------------------
  // What the string tests mean
  // ---------------------------------------------------------------------------

  /** Where a relative path leads, as the names below the root; none when it leaves the
      root. Empty and `.` segments stay, `..` goes up. */
  function Resolve(segments: seq<string>): Option<seq<string>> {
    if segments == [] then Some([])
    else
      var before := Resolve(segments[..|segments| - 1]);
      var last := segments[|segments| - 1];
      if before.None? || last == "" || last == "." then before
      else if last != ".." then Some(before.value + [last])
      else if before.value == [] then None
      else Some(before.value[..|before.value| - 1])
  }

  predicate Nested(a: seq<string>, b: seq<string>) {
    a <= b || b <= a
  }

  lemma {:induction false} SplitPrefix(a: string, b: string)
    ensures Split(a) <= Split(b) <==> a == b || StartsWithin(b, a)
  {
    if a == [] {
      assert b != [] && b[0] != '/' ==> Split(b)[0] != "";
    } else if b != [] && a[0] == b[0] {
      SplitPrefix(a[1..], b[1..]);
      assert a == [a[0]] + a[1..] && b == [b[0]] + b[1..];
      var x, y := Split(a[1..]), Split(b[1..]);
      if a[0] == '/' {
        assert Split(a) <= Split(b) <==> x <= y by {
          assert Split(a)[1..] == x && Split(b)[1..] == y;
        }
      } else {
        assert Split(a) == [[a[0]] + x[0]] + x[1..] && Split(b) == [[a[0]] + y[0]] + y[1..];
        HeadPrefix(a[0], x, y);
      }
      assert StartsWithin(b, a) <==> StartsWithin(b[1..], a[1..]);
    } else if b != [] {
      FirstSegment(a);
      FirstSegment(b);
    } else {
      assert a[0] == '/' ==> |Split(a)| >= 2;
    }
  }

  /** The segments joined by slashes. */
  function Join(segments: seq<string>): string
    requires segments != []
  {
    if |segments| == 1 then segments[0] else segments[0] + "/" + Join(segments[1..])
  }

  /** Splitting loses nothing and leaves no slash in a segment. */
  lemma {:induction false} SplitJoins(s: string)
    ensures Join(Split(s)) == s
    ensures forall i :: 0 <= i < |Split(s)| ==> '/' !in Split(s)[i]
  {
    if s != [] {
      SplitJoins(s[1..]);
      var rest := Split(s[1..]);
      assert s == [s[0]] + s[1..];
      if s[0] == '/' {
        assert Split(s) == [""] + rest && ([""] + rest)[1..] == rest;
      } else {
        JoinHead(s[0], rest);
      }
    }
  }

  lemma JoinHead(c: char, rest: seq<string>)
    requires rest != []
    ensures Join([[c] + rest[0]] + rest[1..]) == [c] + Join(rest)
  {
    var all := [[c] + rest[0]] + rest[1..];
    assert all[1..] == rest[1..];
    if |rest| > 1 {
      assert [c] + rest[0] + "/" + Join(rest[1..]) == [c] + (rest[0] + "/" + Join(rest[1..]));
    }
  }

  lemma FirstSegment(s: string)
    requires s != []
    ensures if s[0] == '/' then Split(s)[0] == "" else Split(s)[0] != "" && Split(s)[0][0] == s[0]
  {
  }

  lemma HeadPrefix(c: char, x: seq<string>, y: seq<string>)
    requires x != [] && y != []
    ensures [[c] + x[0]] + x[1..] <= [[c] + y[0]] + y[1..] <==> x <= y
  {
    var p, q := [[c] + x[0]] + x[1..], [[c] + y[0]] + y[1..];
    assert p[1..] == x[1..] && q[1..] == y[1..];
    assert p[0][1..] == x[0] && q[0][1..] == y[0];
    assert x == [x[0]] + x[1..] && y == [y[0]] + y[1..];
  }

  /** A validated path other than `.` leads to its own segments, so it never leaves the
      root and is spelled in one way only. */
  lemma {:induction false} PlainResolves(segments: seq<string>)
    requires forall i :: 0 <= i < |segments| ==> PlainSegment(segments[i])
    ensures Resolve(segments) == Some(segments)
  {
    if segments != [] {
      var n := |segments| - 1;
      PlainResolves(segments[..n]);
      assert segments == segments[..n] + [segments[n]];
    }
  }

  /** The string-prefix test decides nesting of locations, on every path the
      configuration accepts for an output, a mount or an artifact. */
  lemma OverlapIsNesting(a: string, b: string)
    requires ValidPath(a) && ValidPath(b) && a != "." && b != "."
    ensures Resolve(Split(a)) == Some(Split(a)) && Resolve(Split(b)) == Some(Split(b))
    ensures Overlap(a, b) <==> Nested(Split(a), Split(b))
  {
    PlainResolves(Split(a));
    PlainResolves(Split(b));
    SplitPrefix(a, b);
    SplitPrefix(b, a);
  }

  // ---------------------------------------------------------------------------
  // Pairwise isolation
  // ---------------------------------------------------------------------------

  function Mounts(caches: seq<Cache>): seq<string> {
    seq(|caches|, i requires 0 <= i < |caches| => caches[i].mountPath)
  }

  function AllArtifacts(checks: seq<NormalizedCheck>): seq<string> {
    if checks == [] then [] else AllArtifacts(checks[..|checks| - 1]) + checks[|checks| - 1].artifacts
  }

  /** Every location the plan uses: the mounts, the receipt output and the artifacts of
      all checks. */
  function Claims(receipt: string, caches: seq<Cache>, checks: seq<NormalizedCheck>): seq<string> {
    Mounts(caches) + [receipt] + AllArtifacts(checks)
  }

  predicate Isolated(claims: seq<string>) {
    forall p, q :: 0 <= p < q < |claims| ==> !Overlap(claims[p], claims[q])
  }

  /** `a` and `b` are claimed at two positions and overlap. */
  predicate Clash(claims: seq<string>, a: string, b: string) {
    && Overlap(a, b)
    && exists p, q :: 0 <= p < |claims| && 0 <= q < |claims| && p != q && claims[p] == a && claims[q] == b
  }

  lemma ClashBreaks(claims: seq<string>, a: string, b: string)
    requires Clash(claims, a, b)
    ensures !Isolated(claims)
  {
    var p, q :| 0 <= p < |claims| && 0 <= q < |claims| && p != q && claims[p] == a && claims[q] == b;
    assert Overlap(claims[p], claims[q]) && Overlap(claims[q], claims[p]);
  }

  /** The loop of comparisons against a list of paths. */
  method FindOverlap(path: string, others: seq<string>) returns (hit: Option<string>)
    ensures hit.None? <==> forall o :: o in others ==> !Overlap(path, o)
    ensures hit.Some? ==> hit.value in others && Overlap(path, hit.value)
  {
    for i := 0 to |others|
      invariant forall k :: 0 <= k < i ==> !Overlap(path, others[k])
    {
      if Overlap(path, others[i]) {
        return Some(others[i]);
      }
    }
    return None;
  }

  lemma IsolatedExtends(claims: seq<string>, x: string)
    requires Isolated(claims) && forall o :: o in claims ==> !Overlap(x, o)
    ensures Isolated(claims + [x])
  {
    var more := claims + [x];
    forall p, q | 0 <= p < q < |more|
      ensures !Overlap(more[p], more[q])
    {
      assert more[p] in claims;
    }
  }

  lemma ClashStays(claims: seq<string>, x: string, o: string, rest: seq<string>)
    requires o in claims && Overlap(x, o)
    ensures Clash(claims + [x] + rest, x, o)
  {
    var p :| 0 <= p < |claims| && claims[p] == o;
    var all := claims + [x] + rest;
    assert all[p] == o && all[|claims|] == x;
  }

  /** The loops over the cache mounts. */
  method IsolateMounts(receipt: string, caches: seq<Cache>) returns (r: Result<(), ConfigError>)
    ensures r.Ok? <==> Isolated(Mounts(caches) + [receipt])
    ensures r.Err? ==> r.error.PathOverlap? && Clash(Mounts(caches) + [receipt], r.error.first, r.error.second)
  {
    var mounts := Mounts(caches);
    var all := mounts + [receipt];
    for i := 0 to |caches|
      invariant forall p, q :: 0 <= p < i && p < q < |all| ==> !Overlap(all[p], all[q])
    {
      var hit := FindOverlap(mounts[i], mounts[i + 1..]);
      if hit.Some? {
        var q :| 0 <= q < |mounts[i + 1..]| && mounts[i + 1..][q] == hit.value;
        assert all[i] == mounts[i] && all[i + 1 + q] == hit.value;
        ClashBreaks(all, mounts[i], hit.value);
        return Err(PathOverlap(mounts[i], hit.value));
      }
      if Overlap(mounts[i], receipt) {
        assert all[i] == mounts[i] && all[|mounts|] == receipt;
        ClashBreaks(all, mounts[i], receipt);
        return Err(PathOverlap(mounts[i], receipt));
      }
      forall q | i < q < |all|
        ensures !Overlap(all[i], all[q])
      {
        if q < |mounts| {
          assert all[q] == mounts[i + 1..][q - i - 1];
        }
      }
    }
    return Ok(());
  }

  /** One artifact against everything claimed before it. */
  method IsolateArtifact(artifact: string, receipt: string, caches: seq<Cache>, artifacts: set<string>)
    returns (r: Result<(), ConfigError>)
    ensures r.Ok? <==>
      && (forall o :: o in artifacts ==> !Overlap(artifact, o))
      && !Overlap(artifact, receipt)
      && (forall o :: o in Mounts(caches) ==> !Overlap(artifact, o))
    ensures r.Err? ==>
      || (r.error == DuplicateArtifact(artifact) && artifact in artifacts)
      || (&& r.error.PathOverlap? && r.error.first == artifact && Overlap(artifact, r.error.second)
          && artifact !in artifacts
          && (r.error.second in artifacts || r.error.second == receipt || r.error.second in Mounts(caches)))
  {
    if artifact in artifacts {
      return Err(DuplicateArtifact(artifact));
    }
    var sorted := SortSet(artifacts);
    assert forall o :: o in sorted <==> o in Elements(sorted);
    var hit := FindOverlap(artifact, sorted);
    if hit.Some? {
      return Err(PathOverlap(artifact, hit.value));
    }
    if Overlap(artifact, receipt) {
      return Err(PathOverlap(artifact, receipt));
    }
    hit := FindOverlap(artifact, Mounts(caches));
    if hit.Some? {
      return Err(PathOverlap(artifact, hit.value));
    }
    return Ok(());
  }

  /** The loop over the artifacts of one check. */
  method IsolateCheck(receipt: string, caches: seq<Cache>, artifacts: set<string>, ghost seen: seq<string>,
                      check: NormalizedCheck)
    returns (r: Result<set<string>, ConfigError>)
    requires artifacts == Elements(seen) && Isolated(Mounts(caches) + [receipt] + seen)
    ensures r.Ok? ==> r.value == Elements(seen + check.artifacts)
    ensures r.Ok? <==> Isolated(Mounts(caches) + [receipt] + (seen + check.artifacts))
    ensures r.Err? ==> Truthful(Mounts(caches) + [receipt] + (seen + check.artifacts), r.error)
  {
    var claimed := artifacts;
    ghost var base := Mounts(caches) + [receipt];
    ghost var all := base + (seen + check.artifacts);
    assert seen + check.artifacts[..0] == seen;
    for i := 0 to |check.artifacts|
      invariant claimed == Elements(seen + check.artifacts[..i])
      invariant Isolated(base + (seen + check.artifacts[..i]))
    {
      var artifact := check.artifacts[i];
      ghost var before := base + (seen + check.artifacts[..i]);
      assert check.artifacts == check.artifacts[..i] + [artifact] + check.artifacts[i + 1..];
      assert all == before + [artifact] + check.artifacts[i + 1..];
      Claimed(base, seen + check.artifacts[..i], Mounts(caches), receipt);
      var one := IsolateArtifact(artifact, receipt, caches, claimed);
      if one.Err? {
        ghost var other := if one.error.DuplicateArtifact? then artifact else one.error.second;
        assert other in before && Overlap(artifact, other);
        ClashStays(before, artifact, other, check.artifacts[i + 1..]);
        ClashBreaks(all, artifact, other);
        return Err(one.error);
      }
      IsolatedExtends(before, artifact);
      assert before + [artifact] == base + (seen + check.artifacts[..i + 1]);
      claimed := claimed + {artifact};
    }
    assert check.artifacts[..|check.artifacts|] == check.artifacts;
    return Ok(claimed);
  }

  lemma Claimed(base: seq<string>, seen: seq<string>, mounts: seq<string>, receipt: string)
    requires base == mounts + [receipt]
    ensures forall o :: o in base + seen <==> o in mounts || o == receipt || o in Elements(seen)
  {
  }

  /** The error names two claims that really overlap. */
  predicate Truthful(claims: seq<string>, error: ConfigError) {
    match error
    case PathOverlap(first, second) => Clash(claims, first, second)
    case DuplicateArtifact(artifact) => Clash(claims, artifact, artifact)
    case _ => false
  }

  /** `validate_path_isolation`: passes exactly when no two locations of the plan overlap. */
  method ValidatePathIsolation(receipt: string, caches: seq<Cache>, checks: seq<NormalizedCheck>)
    returns (r: Result<(), ConfigError>)
    ensures r.Ok? <==> Isolated(Claims(receipt, caches, checks))
    ensures r.Err? ==> Truthful(Claims(receipt, caches, checks), r.error)
  {
    var mounts := IsolateMounts(receipt, caches);
    ghost var base := Mounts(caches) + [receipt];
    ghost var all := Claims(receipt, caches, checks);
    if mounts.Err? {
      ClashInLonger(base, AllArtifacts(checks), mounts.error.first, mounts.error.second);
      return Err(mounts.error);
    }
    var artifacts: set<string> := {};
    assert base + AllArtifacts(checks[..0]) == base;
    for i := 0 to |checks|
      invariant artifacts == Elements(AllArtifacts(checks[..i]))
      invariant Isolated(base + AllArtifacts(checks[..i]))
    {
      ghost var seen := AllArtifacts(checks[..i]);
      assert checks[..i + 1][..i] == checks[..i];
      assert AllArtifacts(checks[..i + 1]) == seen + checks[i].artifacts;
      var one := IsolateCheck(receipt, caches, artifacts, seen, checks[i]);
      if one.Err? {
        ghost var rest := ArtifactsSplit(checks, i + 1);
        assert all == (base + (seen + checks[i].artifacts)) + rest;
        TruthfulInLonger(base + (seen + checks[i].artifacts), rest, one.error);
        return Err(one.error);
      }
      artifacts := one.value;
    }
    assert checks[..|checks|] == checks;
    return Ok(());
  }

  lemma ClashInLonger(claims: seq<string>, rest: seq<string>, a: string, b: string)
    requires Clash(claims, a, b)
    ensures Clash(claims + rest, a, b) && !Isolated(claims + rest)
  {
    var p, q :| 0 <= p < |claims| && 0 <= q < |claims| && p != q && claims[p] == a && claims[q] == b;
    assert (claims + rest)[p] == a && (claims + rest)[q] == b;
    ClashBreaks(claims + rest, a, b);
  }

  lemma TruthfulInLonger(claims: seq<string>, rest: seq<string>, error: ConfigError)
    requires Truthful(claims, error)
    ensures Truthful(claims + rest, error) && !Isolated(claims + rest)
  {
    match error
    case PathOverlap(first, second) => ClashInLonger(claims, rest, first, second);
    case DuplicateArtifact(artifact) => ClashInLonger(claims, rest, artifact, artifact);
  }

  lemma {:induction false} ArtifactsSplit(checks: seq<NormalizedCheck>, i: nat) returns (rest: seq<string>)
    requires i <= |checks|
    ensures AllArtifacts(checks) == AllArtifacts(checks[..i]) + rest
    decreases |checks|
  {
    if i == |checks| {
      rest := [];
      assert checks[..i] == checks;
    } else {
      var n := |checks| - 1;
      rest := ArtifactsSplit(checks[..n], i);
      assert checks[..n][..i] == checks[..i];
      rest := rest + checks[n].artifacts;
    }
  }

  /** Isolation is about locations: on validated paths it passes exactly when no location
      equals or contains another. */
  lemma IsolationMeaning(claims: seq<string>)
    requires forall p :: 0 <= p < |claims| ==> ValidPath(claims[p]) && claims[p] != "."
    ensures Isolated(claims) <==>
      forall p, q :: 0 <= p < |claims| && 0 <= q < |claims| && p != q ==>
        !Nested(Split(claims[p]), Split(claims[q]))
  {
    forall p, q | 0 <= p < |claims| && 0 <= q < |claims|
      ensures Overlap(claims[p], claims[q]) <==> Nested(Split(claims[p]), Split(claims[q]))
    {
      OverlapIsNesting(claims[p], claims[q]);
    }
  }
}
