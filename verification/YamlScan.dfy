/**
 `reject_yaml_indirection` (src/github_actions.rs:143-243): a stack machine over parser
 events that refuses aliases, anchors, tags, keys that are not scalars and duplicate
 keys. It agrees with a recursive reading of the node trees behind the events.
 */
module YamlScan {
  import opened Common

  /** What the parser yields; the position and the style of an event are not modelled. */
  datatype Event =
    | Alias
    | Scalar(text: string, anchor: nat, tagged: bool)
    | MappingStart(anchor: nat, tagged: bool)
    | SequenceStart(anchor: nat, tagged: bool)
    | MappingEnd
    | SequenceEnd
    | Nothing
    | StreamStart
    | StreamEnd
    | DocumentStart
    | DocumentEnd

  datatype Context = InMapping(expectingKey: bool, keys: set<string>) | InSequence

  datatype ScanError =
    | AliasFound
    | AnchorOrTag
    | DuplicateKey
    | ComplexMappingKey
    | ComplexSequenceKey
    | ParseFailure

  type Stack = seq<Context>

  // ---------------------------------------------------------------------------
  // The stack machine
  // ---------------------------------------------------------------------------

  predicate ExpectsKey(stack: Stack) {
    stack != [] && stack[|stack| - 1].InMapping? && stack[|stack| - 1].expectingKey
  }

  function Replace(stack: Stack, context: Context): Stack
    requires stack != []
  {
    stack[..|stack| - 1] + [context]
  }

  /** `complete_parent_value`. */
  function CompleteParent(stack: Stack): Stack {
    if stack != [] && stack[|stack| - 1].InMapping? then Replace(stack, InMapping(true, stack[|stack| - 1].keys))
    else stack
  }

  predicate Marked(anchor: nat, tagged: bool) {
    anchor != 0 || tagged
  }

  function OnScalar(stack: Stack, text: string): Result<Stack, ScanError> {
    if stack == [] || stack[|stack| - 1].InSequence? then Ok(stack)
    else
      var top := stack[|stack| - 1];
      if !top.expectingKey then Ok(Replace(stack, InMapping(true, top.keys)))
      else if text in top.keys then Err(DuplicateKey)
      else Ok(Replace(stack, InMapping(false, top.keys + {text})))
  }

  function Step(stack: Stack, event: Event): Result<Stack, ScanError> {
    match event
    case Alias => Err(AliasFound)
    case Scalar(text, anchor, tagged) => if Marked(anchor, tagged) then Err(AnchorOrTag) else OnScalar(stack, text)
    case MappingStart(anchor, tagged) =>
      if Marked(anchor, tagged) then Err(AnchorOrTag)
      else if ExpectsKey(stack) then Err(ComplexMappingKey)
      else Ok(stack + [InMapping(true, {})])
    case SequenceStart(anchor, tagged) =>
      if Marked(anchor, tagged) then Err(AnchorOrTag)
      else if ExpectsKey(stack) then Err(ComplexSequenceKey)
      else Ok(stack + [InSequence])
    case MappingEnd => Ok(CompleteParent(if stack == [] then [] else stack[..|stack| - 1]))
    case SequenceEnd => Ok(CompleteParent(if stack == [] then [] else stack[..|stack| - 1]))
    case _ => Ok(stack)
  }

  function Run(stack: Stack, events: seq<Event>): Result<Stack, ScanError>
    decreases events
  {
    if events == [] then Ok(stack)
    else
      var next := Step(stack, events[0]);
      if next.Ok? then Run(next.value, events[1..]) else next
  }

  /** `reject_yaml_indirection`; `broken` when the parser fails after the events. On the
      events of whole documents it accepts exactly the clean ones. */
  method RejectIndirection(events: seq<Event>, broken: bool) returns (r: Result<(), ScanError>)
    ensures Run([], events).Err? ==> r == Err(Run([], events).error)
    ensures Run([], events).Ok? ==> if broken then r == Err(ParseFailure) else r.Ok?
    ensures forall documents :: events == Stream(documents) && !broken ==> (r.Ok? <==> AllClean(documents))
  {
    r := ScanEvents(events);
    if r.Ok? && broken {
      r := Err(ParseFailure);
    }
    forall documents | events == Stream(documents)
      ensures Run([], events).Ok? <==> AllClean(documents)
    {
      AcceptsExactlyCleanDocuments(documents);
    }
  }

  /** The loop over the parser's events. */
  method ScanEvents(events: seq<Event>) returns (r: Result<(), ScanError>)
    ensures Run([], events).Err? ==> r == Err(Run([], events).error)
    ensures Run([], events).Ok? ==> r.Ok?
  {
    var stack: Stack := [];
    assert events[0..] == events;
    for i := 0 to |events|
      invariant Run(stack, events[i..]) == Run([], events)
    {
      assert events[i..][1..] == events[i + 1..];
      match events[i]
      case Alias =>
        return Err(AliasFound);
      case Scalar(text, anchor, tagged) =>
        if Marked(anchor, tagged) {
          return Err(AnchorOrTag);
        }
        if stack != [] && stack[|stack| - 1].InMapping? {
          var top := stack[|stack| - 1];
          if top.expectingKey {
            if text in top.keys {
              return Err(DuplicateKey);
            }
            stack := Replace(stack, InMapping(false, top.keys + {text}));
          } else {
            stack := Replace(stack, InMapping(true, top.keys));
          }
        }
      case MappingStart(anchor, tagged) =>
        if Marked(anchor, tagged) {
          return Err(AnchorOrTag);
        }
        if ExpectsKey(stack) {
          return Err(ComplexMappingKey);
        }
        stack := stack + [InMapping(true, {})];
      case SequenceStart(anchor, tagged) =>
        if Marked(anchor, tagged) {
          return Err(AnchorOrTag);
        }
        if ExpectsKey(stack) {
          return Err(ComplexSequenceKey);
        }
        stack := stack + [InSequence];
      case MappingEnd =>
        stack := CompleteParent(if stack == [] then [] else stack[..|stack| - 1]);
      case SequenceEnd =>
        stack := CompleteParent(if stack == [] then [] else stack[..|stack| - 1]);
      case _ =>
    }
    return Ok(());
  }

  // ---------------------------------------------------------------------------
  // Node trees
  // ---------------------------------------------------------------------------

  datatype Node =
    | AliasNode
    | ScalarNode(text: string, anchor: nat, tagged: bool)
    | SequenceNode(items: seq<Node>, anchor: nat, tagged: bool)
    | MappingNode(pairs: seq<Pair>, anchor: nat, tagged: bool)

  datatype Pair = Pair(key: Node, value: Node)

  /** The events of a node, in the order of the document. */
  function Events(n: Node): seq<Event> {
    match n
    case AliasNode => [Alias]
    case ScalarNode(text, anchor, tagged) => [Scalar(text, anchor, tagged)]
    case SequenceNode(items, anchor, tagged) => [SequenceStart(anchor, tagged)] + ItemEvents(items) + [SequenceEnd]
    case MappingNode(pairs, anchor, tagged) => [MappingStart(anchor, tagged)] + PairEvents(pairs) + [MappingEnd]
  }

  function ItemEvents(items: seq<Node>): seq<Event> {
    if items == [] then [] else Events(items[0]) + ItemEvents(items[1..])
  }

  function PairEvents(pairs: seq<Pair>): seq<Event> {
    if pairs == [] then [] else EntryEvents(pairs[0]) + PairEvents(pairs[1..])
  }

  function EntryEvents(p: Pair): seq<Event> {
    Events(p.key) + Events(p.value)
  }

  function DocumentEvents(documents: seq<Node>): seq<Event> {
    if documents == [] then []
    else [DocumentStart] + (Events(documents[0]) + ([DocumentEnd] + DocumentEvents(documents[1..])))
  }

  function Stream(documents: seq<Node>): seq<Event> {
    [StreamStart] + (DocumentEvents(documents) + [StreamEnd])
  }

  /** What the scanner must accept: no alias, anchor or tag, only scalar keys, and the key
      texts of each mapping pairwise distinct. */
  predicate Clean(n: Node) {
    match n
    case AliasNode => false
    case ScalarNode(_, anchor, tagged) => anchor == 0 && !tagged
    case SequenceNode(items, anchor, tagged) =>
      anchor == 0 && !tagged && forall i :: 0 <= i < |items| ==> Clean(items[i])
    case MappingNode(pairs, anchor, tagged) =>
      && anchor == 0 && !tagged
      && (forall i :: 0 <= i < |pairs| ==> pairs[i].key.ScalarNode? && Clean(pairs[i].key) && Clean(pairs[i].value))
      && forall i, j :: 0 <= i < j < |pairs| ==> pairs[i].key.text != pairs[j].key.text
  }

  predicate AllClean(documents: seq<Node>) {
    forall i :: 0 <= i < |documents| ==> Clean(documents[i])
  }

  /** The first fault in the order of the document. */
  function Fault(n: Node, isKey: bool): Option<ScanError>
    decreases n
  {
    match n
    case AliasNode => Some(AliasFound)
    case ScalarNode(_, anchor, tagged) => if Marked(anchor, tagged) then Some(AnchorOrTag) else None
    case SequenceNode(items, anchor, tagged) =>
      if Marked(anchor, tagged) then Some(AnchorOrTag)
      else if isKey then Some(ComplexSequenceKey)
      else ItemFault(items)
    case MappingNode(pairs, anchor, tagged) =>
      if Marked(anchor, tagged) then Some(AnchorOrTag)
      else if isKey then Some(ComplexMappingKey)
      else PairFault(pairs, {})
  }

  function ItemFault(items: seq<Node>): Option<ScanError> {
    if items == [] then None
    else
      var first := Fault(items[0], false);
      if first.Some? then first else ItemFault(items[1..])
  }

  function PairFault(pairs: seq<Pair>, keys: set<string>): Option<ScanError>
    decreases pairs
  {
    if pairs == [] then None
    else
      var first := EntryFault(pairs[0], keys);
      if first.Some? || !pairs[0].key.ScalarNode? then first
      else PairFault(pairs[1..], keys + {pairs[0].key.text})
  }

  function EntryFault(p: Pair, keys: set<string>): Option<ScanError>
    decreases p
  {
    var key := Fault(p.key, true);
    if key.Some? || !p.key.ScalarNode? then key
    else if p.key.text in keys then Some(DuplicateKey)
    else Fault(p.value, false)
  }

  function DocumentFault(documents: seq<Node>): Option<ScanError> {
    if documents == [] then None
    else
      var first := Fault(documents[0], false);
      if first.Some? then first else DocumentFault(documents[1..])
  }

  // ---------------------------------------------------------------------------
  // The machine reads trees
  // ---------------------------------------------------------------------------

  /** The fault, if there is one, otherwise what follows. */
  function Unless(fault: Option<ScanError>, next: Result<Stack, ScanError>): Result<Stack, ScanError> {
    if fault.Some? then Err(fault.value) else next
  }

  lemma RunOne(stack: Stack, event: Event, rest: seq<Event>)
    ensures Run(stack, [event] + rest) ==
            if Step(stack, event).Ok? then Run(Step(stack, event).value, rest) else Step(stack, event)
  {
    assert ([event] + rest)[1..] == rest;
  }

  /** The stack after a whole node in a place where it is not a key. */
  lemma {:induction false} ValueRuns(n: Node, stack: Stack, rest: seq<Event>)
    requires !ExpectsKey(stack)
    ensures Run(stack, Events(n) + rest) ==
            Unless(Fault(n, false), Run(CompleteParent(stack), rest))
    decreases n
  {
    match n
    case AliasNode => RunOne(stack, Alias, rest);
    case ScalarNode(text, anchor, tagged) => RunOne(stack, Scalar(text, anchor, tagged), rest);
    case SequenceNode(items, anchor, tagged) =>
      var inner := ItemEvents(items) + ([SequenceEnd] + rest);
      Nested(SequenceStart(anchor, tagged), ItemEvents(items), SequenceEnd, rest);
      RunOne(stack, SequenceStart(anchor, tagged), inner);
      if !Marked(anchor, tagged) {
        ItemsRun(items, stack + [InSequence], [SequenceEnd] + rest);
        RunOne(stack + [InSequence], SequenceEnd, rest);
        assert (stack + [InSequence])[..|stack|] == stack;
      }
    case MappingNode(pairs, anchor, tagged) =>
      var inner := PairEvents(pairs) + ([MappingEnd] + rest);
      Nested(MappingStart(anchor, tagged), PairEvents(pairs), MappingEnd, rest);
      RunOne(stack, MappingStart(anchor, tagged), inner);
      if !Marked(anchor, tagged) {
        PairsRun(pairs, stack, {}, rest);
      }
  }

  lemma Nested(first: Event, inner: seq<Event>, last: Event, rest: seq<Event>)
    ensures [first] + inner + [last] + rest == [first] + (inner + ([last] + rest))
  {
  }

  lemma {:induction false} ItemsRun(items: seq<Node>, stack: Stack, rest: seq<Event>)
    requires stack != [] && stack[|stack| - 1] == InSequence
    ensures Run(stack, ItemEvents(items) + rest) ==
            Unless(ItemFault(items), Run(stack, rest))
    decreases items
  {
    if items == [] {
      assert ItemEvents(items) + rest == rest;
    } else {
      var more := ItemEvents(items[1..]) + rest;
      assert ItemEvents(items) + rest == Events(items[0]) + more;
      ValueRuns(items[0], stack, more);
      ItemsRun(items[1..], stack, rest);
    }
  }

  lemma {:induction false} PairsRun(pairs: seq<Pair>, stack: Stack, keys: set<string>, rest: seq<Event>)
    ensures Run(stack + [InMapping(true, keys)], PairEvents(pairs) + ([MappingEnd] + rest)) ==
            Unless(PairFault(pairs, keys), Run(CompleteParent(stack), rest))
    decreases pairs
  {
    var all := stack + [InMapping(true, keys)];
    if pairs == [] {
      assert PairEvents(pairs) + ([MappingEnd] + rest) == [MappingEnd] + rest;
      RunOne(all, MappingEnd, rest);
      assert all[..|all| - 1] == stack;
    } else {
      var more := PairEvents(pairs[1..]) + ([MappingEnd] + rest);
      assert PairEvents(pairs) + ([MappingEnd] + rest) == EntryEvents(pairs[0]) + more;
      EntryRuns(pairs[0], stack, keys, more);
      if EntryFault(pairs[0], keys).None? {
        PairsRun(pairs[1..], stack, keys + {pairs[0].key.text}, rest);
      }
    }
  }

  lemma {:induction false} EntryRuns(p: Pair, stack: Stack, keys: set<string>, rest: seq<Event>)
    ensures EntryFault(p, keys).None? ==> p.key.ScalarNode?
    ensures Run(stack + [InMapping(true, keys)], EntryEvents(p) + rest) ==
            if EntryFault(p, keys).Some? then Err(EntryFault(p, keys).value)
            else Run(stack + [InMapping(true, keys + {p.key.text})], rest)
    decreases p
  {
    var value := Events(p.value) + rest;
    assert EntryEvents(p) + rest == Events(p.key) + value;
    KeyRuns(p.key, stack, keys, value);
    if Fault(p.key, true).None? && p.key.text !in keys {
      var keys' := keys + {p.key.text};
      ValueRuns(p.value, stack + [InMapping(false, keys')], rest);
      assert CompleteParent(stack + [InMapping(false, keys')]) == stack + [InMapping(true, keys')];
    }
  }

  /** A key: the first event decides. */
  lemma KeyRuns(n: Node, stack: Stack, keys: set<string>, rest: seq<Event>)
    ensures Fault(n, true).None? ==> n.ScalarNode?
    ensures Run(stack + [InMapping(true, keys)], Events(n) + rest) ==
            if Fault(n, true).Some? then Err(Fault(n, true).value)
            else if n.text in keys then Err(DuplicateKey)
            else Run(stack + [InMapping(false, keys + {n.text})], rest)
  {
    var all := stack + [InMapping(true, keys)];
    var events := Events(n);
    assert events + rest == [events[0]] + (events[1..] + rest);
    RunOne(all, events[0], events[1..] + rest);
    if n.ScalarNode? {
      assert events[1..] + rest == rest;
      assert all[..|all| - 1] == stack;
    }
  }

  lemma {:induction false} DocumentsRun(documents: seq<Node>, rest: seq<Event>)
    ensures Run([], DocumentEvents(documents) + rest) ==
            Unless(DocumentFault(documents), Run([], rest))
    decreases documents
  {
    if documents == [] {
      assert DocumentEvents(documents) + rest == rest;
    } else {
      var more := DocumentEvents(documents[1..]) + rest;
      var body := Events(documents[0]) + ([DocumentEnd] + more);
      assert DocumentEvents(documents) + rest == [DocumentStart] + body;
      RunOne([], DocumentStart, body);
      ValueRuns(documents[0], [], [DocumentEnd] + more);
      RunOne([], DocumentEnd, more);
      DocumentsRun(documents[1..], rest);
    }
  }

  /** On the events of any documents the machine stops at the first fault of the trees, or
      ends with an empty stack. */
  lemma ScanIsRecursive(documents: seq<Node>)
    ensures Run([], Stream(documents)) == Unless(DocumentFault(documents), Ok([]))
  {
    RunOne([], StreamStart, DocumentEvents(documents) + [StreamEnd]);
    DocumentsRun(documents, [StreamEnd]);
    assert [StreamEnd] == [StreamEnd] + [];
    RunOne([], StreamEnd, []);
  }

  // ---------------------------------------------------------------------------
  // Acceptance
  // ---------------------------------------------------------------------------

  lemma {:induction false} NoFaultIsClean(n: Node)
    ensures Fault(n, false).None? <==> Clean(n)
    decreases n
  {
    match n
    case AliasNode =>
    case ScalarNode(_, _, _) =>
    case SequenceNode(items, _, _) => NoItemFault(items);
    case MappingNode(pairs, _, _) => NoPairFault(pairs, {});
  }

  lemma {:induction false} NoItemFault(items: seq<Node>)
    ensures ItemFault(items).None? <==> forall i :: 0 <= i < |items| ==> Clean(items[i])
    decreases items
  {
    if items != [] {
      NoFaultIsClean(items[0]);
      NoItemFault(items[1..]);
      assert items == [items[0]] + items[1..];
    }
  }

  /** The pairs are clean and no key text repeats one of `keys` or another key. */
  predicate GoodPairs(pairs: seq<Pair>, keys: set<string>) {
    && (forall i :: 0 <= i < |pairs| ==> GoodPair(pairs[i]) && pairs[i].key.text !in keys)
    && forall i, j :: 0 <= i < j < |pairs| ==> pairs[i].key.text != pairs[j].key.text
  }

  predicate GoodPair(p: Pair) {
    p.key.ScalarNode? && Clean(p.key) && Clean(p.value)
  }

  lemma {:induction false} NoPairFault(pairs: seq<Pair>, keys: set<string>)
    ensures PairFault(pairs, keys).None? <==> GoodPairs(pairs, keys)
    decreases pairs
  {
    if pairs != [] {
      NoEntryFault(pairs[0], keys);
      assert pairs == [pairs[0]] + pairs[1..];
      if GoodPair(pairs[0]) && pairs[0].key.text !in keys {
        NoPairFault(pairs[1..], keys + {pairs[0].key.text});
        GoodPairsTail(pairs, keys);
      }
    }
  }

  lemma {:induction false} NoEntryFault(p: Pair, keys: set<string>)
    ensures EntryFault(p, keys).None? <==> GoodPair(p) && p.key.text !in keys
    ensures EntryFault(p, keys).None? ==> p.key.ScalarNode?
    decreases p
  {
    NoFaultIsClean(p.value);
  }

  lemma GoodPairsTail(pairs: seq<Pair>, keys: set<string>)
    requires pairs != [] && GoodPair(pairs[0]) && pairs[0].key.text !in keys
    ensures GoodPairs(pairs, keys) <==> GoodPairs(pairs[1..], keys + {pairs[0].key.text})
  {
    var rest := pairs[1..];
    if GoodPairs(rest, keys + {pairs[0].key.text}) {
      forall i | 0 <= i < |pairs|
        ensures GoodPair(pairs[i]) && pairs[i].key.text !in keys
        ensures i > 0 ==> pairs[i].key.text != pairs[0].key.text
      {
        if i > 0 {
          assert pairs[i] == rest[i - 1];
        }
      }
      forall i, j | 0 <= i < j < |pairs|
        ensures pairs[i].key.text != pairs[j].key.text
      {
        if i > 0 {
          assert pairs[i] == rest[i - 1] && pairs[j] == rest[j - 1];
        }
      }
    }
  }

  lemma {:induction false} NoDocumentFault(documents: seq<Node>)
    ensures DocumentFault(documents).None? <==> AllClean(documents)
    decreases |documents|
  {
    if documents != [] {
      NoFaultIsClean(documents[0]);
      NoDocumentFault(documents[1..]);
      assert documents == [documents[0]] + documents[1..];
    }
  }

  /** The scanner accepts the events of a stream exactly when every document is clean, at
      every depth. */
  lemma AcceptsExactlyCleanDocuments(documents: seq<Node>)
    ensures Run([], Stream(documents)).Ok? <==> AllClean(documents)
  {
    ScanIsRecursive(documents);
    NoDocumentFault(documents);
  }
}
