/**
 Ticket ids: the counter (src/admission.rs:1277-1344), the 20-digit text of an id and
 the order of those texts.
 */
module TicketIds {
  import opened Common
  import opened Order
  import opened AdmissionProtocol

  const TICKET_PREFIX := "ticket-"
  const TICKET_SUFFIX := ".json"
  const STAGING_PREFIX := ".ticket-staging-"
  const ID_DIGITS := 20

  function Digit(d: nat): (c: char)
    requires d < 10
    ensures IsDigit(c) && (c as int) - ('0' as int) == d
  {
    ('0' as int + d) as char
  }

  function Pow10(w: nat): nat {
    if w == 0 then 1 else 10 * Pow10(w - 1)
  }

  /** `n` in `w` decimal digits with leading zeros. */
  function Text(n: nat, w: nat): (s: string)
    ensures |s| == w && forall i :: 0 <= i < w ==> IsDigit(s[i])
  {
    if w == 0 then [] else Text(n / 10, w - 1) + [Digit(n % 10)]
  }

  /** The number a digit string stands for. */
  function Value(s: string): nat
    requires forall i :: 0 <= i < |s| ==> IsDigit(s[i])
  {
    if s == [] then 0
    else
      assert IsDigit(s[|s| - 1]);
      10 * Value(s[..|s| - 1]) + (s[|s| - 1] as int - '0' as int)
  }

  function IdText(id: nat): string {
    Text(id, ID_DIGITS)
  }

  lemma {:induction false} TextRoundTrip(n: nat, w: nat)
    requires n < Pow10(w)
    ensures Value(Text(n, w)) == n
  {
    if w > 0 {
      TextRoundTrip(n / 10, w - 1);
      assert Text(n, w)[..w - 1] == Text(n / 10, w - 1);
    }
  }

  lemma {:induction false} LessAppend(a: string, b: string, x: char, y: char)
    requires |a| == |b|
    ensures Less(a + [x], b + [y]) <==> Less(a, b) || (a == b && x < y)
  {
    if a == [] {
      assert a + [x] == [x] && b + [y] == [y];
    } else {
      LessAppend(a[1..], b[1..], x, y);
      assert (a + [x])[1..] == a[1..] + [x] && (b + [y])[1..] == b[1..] + [y];
      assert a == [a[0]] + a[1..] && b == [b[0]] + b[1..];
    }
  }

  lemma {:induction false} TextOrder(m: nat, n: nat, w: nat)
    requires m < Pow10(w) && n < Pow10(w)
    ensures Less(Text(m, w), Text(n, w)) <==> m < n
    ensures Text(m, w) == Text(n, w) <==> m == n
  {
    if w > 0 {
      TextOrder(m / 10, n / 10, w - 1);
      LessAppend(Text(m / 10, w - 1), Text(n / 10, w - 1), Digit(m % 10), Digit(n % 10));
      assert Text(m, w)[..w - 1] == Text(m / 10, w - 1) && Text(n, w)[..w - 1] == Text(n / 10, w - 1);
      assert Text(m, w)[w - 1] == Digit(m % 10) && Text(n, w)[w - 1] == Digit(n % 10);
    }
  }

  /** Every u64 fits in 20 digits. */
  lemma U64FitsId(n: nat)
    requires n <= U64_MAX
    ensures n < Pow10(ID_DIGITS)
  {
    assert Pow10(5) == 100_000;
    assert Pow10(10) == 10_000_000_000;
    assert Pow10(15) == 1_000_000_000_000_000;
    assert Pow10(20) == 100_000_000_000_000_000_000;
  }

  /** Sorting tickets by the text of their ids sorts them by number, and the text
      determines the number. */
  lemma IdTextOrder(m: nat, n: nat)
    requires m <= U64_MAX && n <= U64_MAX
    ensures Less(IdText(m), IdText(n)) <==> m < n
    ensures IdText(m) == IdText(n) <==> m == n
    ensures Value(IdText(m)) == m
  {
    U64FitsId(m);
    U64FitsId(n);
    TextOrder(m, n, ID_DIGITS);
    TextRoundTrip(m, ID_DIGITS);
  }

  // ---------------------------------------------------------------------------
  // The tickets directory and the counter
  // ---------------------------------------------------------------------------

  predicate StartsWith(s: string, prefix: string) {
    |s| >= |prefix| && s[..|prefix|] == prefix
  }

  predicate EndsWith(s: string, suffix: string) {
    |s| >= |suffix| && s[|s| - |suffix|..] == suffix
  }

  /** `parse_ticket_name` followed by the conversion to u64. */
  function TicketId(name: string): Option<nat> {
    if |name| == |TICKET_PREFIX| + ID_DIGITS + |TICKET_SUFFIX|
       && StartsWith(name, TICKET_PREFIX) && EndsWith(name, TICKET_SUFFIX)
    then
      var digits := name[|TICKET_PREFIX|..|TICKET_PREFIX| + ID_DIGITS];
      if (forall i :: 0 <= i < |digits| ==> IsDigit(digits[i])) && Value(digits) <= U64_MAX
      then Some(Value(digits)) else None
    else None
  }

  function TicketName(id: nat): string {
    TICKET_PREFIX + IdText(id) + TICKET_SUFFIX
  }

  lemma TicketNameRoundTrip(id: nat)
    requires id <= U64_MAX
    ensures TicketId(TicketName(id)) == Some(id) && !StartsWith(TicketName(id), STAGING_PREFIX)
  {
    var name := TicketName(id);
    assert name[7..27] == IdText(id) && name[..7] == TICKET_PREFIX && name[27..] == TICKET_SUFFIX;
    IdTextOrder(id, id);
    assert name[0] == 't';
  }

  /** The counter file: missing, a positive number, or anything else. */
  datatype Counter = NoCounter | Counter(value: nat) | BadCounter

  function CounterValue(c: Counter): nat {
    match c
    case Counter(v) => v
    case _ => 1
  }

  datatype TicketError = MalformedTicket | MalformedCounter | TicketCounterExhausted

  /** The ids present in a directory listing. */
  function Ids(names: seq<string>): set<nat> {
    set i | 0 <= i < |names| && TicketId(names[i]).Some? :: TicketId(names[i]).value
  }

  predicate AllWellFormed(names: seq<string>) {
    forall i :: 0 <= i < |names| ==> StartsWith(names[i], STAGING_PREFIX) || TicketId(names[i]).Some?
  }

  /** `next_ticket_id`: the next id, to be followed by writing `id + 1` to the counter. It
      succeeds exactly when every name is a ticket or a staging file, the counter is
      readable, and neither the id nor its successor overflows u64. */
  method NextTicketId(names: seq<string>, counter: Counter) returns (result: Result<nat, TicketError>)
    requires counter.Counter? ==> 0 < counter.value <= U64_MAX
    ensures result.Ok? ==>
      && AllWellFormed(names) && !counter.BadCounter?
      && IsNextId(Ids(names), CounterValue(counter), result.value) && 0 < result.value && result.value + 1 <= U64_MAX
    ensures result == Err(MalformedTicket) <==> !AllWellFormed(names)
    ensures result == Err(MalformedCounter) <==> AllWellFormed(names) && counter.BadCounter?
    ensures result == Err(TicketCounterExhausted) <==>
      && AllWellFormed(names) && !counter.BadCounter?
      && (CounterValue(counter) + 1 > U64_MAX || exists u :: u in Ids(names) && u + 2 > U64_MAX)
  {
    var highest := 0;
    for i := 0 to |names|
      invariant AllWellFormed(names[..i])
      invariant forall u :: u in Ids(names[..i]) ==> u <= highest
      invariant highest == 0 || highest in Ids(names[..i])
      invariant highest <= U64_MAX
    {
      assert names[..i + 1] == names[..i] + [names[i]];
      if !StartsWith(names[i], STAGING_PREFIX) {
        var id := TicketId(names[i]);
        if id.None? {
          assert !AllWellFormed(names);
          return Err(MalformedTicket);
        }
        IdsStep(names, i);
        if id.value > highest {
          highest := id.value;
        }
      } else {
        assert names[i][0] == STAGING_PREFIX[0] != TICKET_PREFIX[0];
        assert TicketId(names[i]).None?;
        IdsStep(names, i);
      }
    }
    assert names[..|names|] == names;
    if counter.BadCounter? {
      return Err(MalformedCounter);
    }
    var last := CounterValue(counter) - 1;
    var next := if highest > last then highest else last;
    if next + 1 > U64_MAX || next + 2 > U64_MAX {
      return Err(TicketCounterExhausted);
    }
    return Ok(next + 1);
  }

  lemma IdsStep(names: seq<string>, i: nat)
    requires i < |names|
    ensures Ids(names[..i + 1]) == Ids(names[..i]) + (if TicketId(names[i]).Some? then {TicketId(names[i]).value} else {})
  {
    var before, after := names[..i], names[..i + 1];
    forall u | u in Ids(after)
      ensures u in Ids(before) || (TicketId(names[i]).Some? && u == TicketId(names[i]).value)
    {
      var j :| 0 <= j < |after| && TicketId(after[j]).Some? && TicketId(after[j]).value == u;
      if j < i {
        assert before[j] == after[j];
      }
    }
    forall u | u in Ids(before)
      ensures u in Ids(after)
    {
      var j :| 0 <= j < |before| && TicketId(before[j]).Some? && TicketId(before[j]).value == u;
      assert after[j] == before[j];
    }
    if TicketId(names[i]).Some? {
      assert after[i] == names[i];
    }
  }
}
