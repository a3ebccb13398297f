/** The backward causal walk over a session's events. */
module CausalChain {
  import opened Wrappers

  const MAX_HOPS: int := 50

  datatype FieldValue = InternedString(text: string) | Integer(n: int) | OtherValue

  datatype Field = Field(name: string, value: FieldValue)

  /** A decoded event, as far as the walk looks at it. */
  datatype Event = Event(sequence: Option<int>, correlation: Option<string>, payload: seq<Field>)

  datatype Complaint = InvalidHops | MissingEvent

  type Result<+T> = Fallible<T, Complaint>

  // ---- Entities ----

  predicate IsEntityField(name: string) {
    name == "id" || name == "wire" || name == "networkId" || name == "sourceId" || name == "route"
  }

  function Digits(n: nat): string {
    (if n < 10 then [] else Digits(n / 10)) + [('0' as int + n % 10) as char]
  }

  /** A number as the walk writes it. */
  function NumberText(n: int): string { if n < 0 then "-" + Digits(-n) else Digits(n) }

  function FieldRefs(f: Field): set<string> {
    if !IsEntityField(f.name) then {}
    else
      match f.value
      case InternedString(text) => {text}
      case Integer(n) => {NumberText(n)}
      case OtherValue => {}
  }

  function PayloadRefs(payload: seq<Field>): set<string> {
    if payload == [] then {} else PayloadRefs(payload[..|payload| - 1]) + FieldRefs(payload[|payload| - 1])
  }

  /** The entities an event refers to. */
  function Refs(e: Event): set<string> {
    (if e.correlation.Some? && e.correlation.value != "" then {e.correlation.value} else {}) + PayloadRefs(e.payload)
  }

  method EntityRefs(e: Event) returns (refs: set<string>)
    ensures refs == Refs(e)
  {
    refs := {};
    if e.correlation.Some? && e.correlation.value != "" {
      refs := refs + {e.correlation.value};
    }
    ghost var correlation := refs;
    for i := 0 to |e.payload|
      invariant refs == correlation + PayloadRefs(e.payload[..i])
    {
      var item := e.payload[i];
      assert e.payload[..i + 1][..i] == e.payload[..i];
      if IsEntityField(item.name) {
        if item.value.InternedString? {
          refs := refs + {item.value.text};
        } else if item.value.Integer? {
          refs := refs + {NumberText(item.value.n)};
        }
      }
    }
    assert e.payload[..|e.payload|] == e.payload;
  }

  lemma {:induction false} DigitsInjective(m: nat, n: nat)
    requires Digits(m) == Digits(n)
    ensures m == n
    decreases m
  {
    var s, t := Digits(m), Digits(n);
    assert s[|s| - 1] == t[|t| - 1];
    assert m % 10 == n % 10;
    assert s[..|s| - 1] == if m < 10 then [] else Digits(m / 10);
    assert t[..|t| - 1] == if n < 10 then [] else Digits(n / 10);
    if m >= 10 && n >= 10 {
      DigitsInjective(m / 10, n / 10);
    }
  }

  lemma {:induction false} NoMinus(n: nat)
    ensures '-' !in Digits(n)
    decreases n
  {
    if n >= 10 {
      NoMinus(n / 10);
    }
  }

  /** Different numbers are different entities. */
  lemma NumberTextInjective(m: int, n: int)
    requires NumberText(m) == NumberText(n)
    ensures m == n
  {
    if m < 0 && n < 0 {
      assert NumberText(m)[1..] == Digits(-m) && NumberText(n)[1..] == Digits(-n);
      DigitsInjective(-m, -n);
    } else if m >= 0 && n >= 0 {
      DigitsInjective(m, n);
    } else {
      NoMinus(if m < 0 then n else m);
    }
  }

  /** Two events share an entity. */
  predicate Share(a: Event, b: Event) { Refs(a) * Refs(b) != {} }

  // ---- The walk ----

  /**
   The ascending indices below `k` that the walk adds to a chain referring to `refs`, at most `room` of them, nearest
   first.
   */
  function Below(events: seq<Event>, k: nat, refs: set<string>, room: nat): (c: seq<nat>)
    requires k <= |events|
    ensures forall i | 0 <= i < |c| :: c[i] < k
  {
    if room == 0 || k == 0 then []
    else
      var found := Refs(events[k - 1]);
      if refs * found != {} then Below(events, k - 1, refs + found, room - 1) + [k - 1]
      else Below(events, k - 1, refs, room)
  }

  /** The walk's chain back from `target`. */
  function Chain(events: seq<Event>, target: nat, hops: nat): seq<nat>
    requires target < |events|
  {
    Below(events, target, Refs(events[target]), hops) + [target]
  }

  predicate InBounds(events: seq<Event>, indices: seq<nat>) {
    forall i | 0 <= i < |indices| :: indices[i] < |events|
  }

  /** The events at the given indices. */
  function At(events: seq<Event>, indices: seq<nat>): seq<Event>
    requires InBounds(events, indices)
  {
    seq(|indices|, i requires 0 <= i < |indices| => events[indices[i]])
  }

  function Reversed<T>(s: seq<T>): seq<T> {
    if s == [] then [] else Reversed(s[1..]) + [s[0]]
  }

  lemma {:induction false} ReversedAppend<T>(s: seq<T>, x: T)
    ensures Reversed(s + [x]) == [x] + Reversed(s)
    decreases |s|
  {
    if s == [] {
      assert s + [x] == [x] && [x][1..] == [];
    } else {
      assert (s + [x])[1..] == s[1..] + [x] && (s + [x])[0] == s[0];
      ReversedAppend(s[1..], x);
    }
  }

  /** Where the event with a sequence number stands; the last one, should several carry it. */
  function Position(events: seq<Event>, sequence: int): (p: Option<nat>)
    ensures p.Some? ==> p.value < |events| && events[p.value].sequence == Some(sequence)
                        && forall j | p.value < j < |events| :: events[j].sequence != Some(sequence)
    ensures p.None? ==> forall j | 0 <= j < |events| :: events[j].sequence != Some(sequence)
  {
    if events == [] then None
    else if events[|events| - 1].sequence == Some(sequence) then Some(|events| - 1)
    else Position(events[..|events| - 1], sequence)
  }

  method IndexBySequence(events: seq<Event>) returns (index: map<int, nat>)
    ensures forall s :: s in index <==> Position(events, s).Some?
    ensures forall s <- index :: Position(events, s) == Some(index[s])
  {
    index := map[];
    for i := 0 to |events|
      invariant forall s :: s in index <==> Position(events[..i], s).Some?
      invariant forall s <- index :: Position(events[..i], s) == Some(index[s])
    {
      assert events[..i + 1][..i] == events[..i];
      if events[i].sequence.Some? {
        index := index[events[i].sequence.value := i];
      }
    }
    assert events[..|events|] == events;
  }

  /** The events chained so far, and before them those the walk adds from below `k`. */
  function Walked(events: seq<Event>, k: nat, refs: set<string>, room: nat, chained: seq<Event>): seq<Event>
    requires k <= |events|
  {
    At(events, Below(events, k, refs, room)) + chained
  }

  /** The same from the chain as the walk collects it, backwards and up to `hops` events behind the target. */
  function Rest(events: seq<Event>, k: nat, refs: set<string>, hops: nat, chain: seq<Event>): seq<Event>
    requires k <= |events| && |chain| <= hops + 1
  {
    Walked(events, k, refs, hops + 1 - |chain|, Reversed(chain))
  }

  method Walk(events: seq<Event>, target: nat, hops: nat) returns (chain: seq<Event>)
    requires target < |events|
    ensures chain == At(events, Chain(events, target, hops))
  {
    WalkedAll(events, target, hops);
    hide *;
    chain := [events[target]];
    var refs := EntityRefs(chain[0]);
    ghost var whole := Rest(events, target, refs, hops, chain);
    var search: int := target as int - 1;
    var steps := 0;
    var maxSteps := |events|;
    while |chain| < hops + 1 && search >= 0 && steps < maxSteps
      invariant -1 <= search < |events| && steps + search < maxSteps && 1 <= |chain| <= hops + 1
      invariant Rest(events, search + 1, refs, hops, chain) == whole
      decreases search
    {
      steps := steps + 1;
      var event := events[search];
      var found := EntityRefs(event);
      OneBack(events, search, refs, hops, chain);
      if refs * found != {} {
        chain := chain + [event];
        refs := refs + found;
      }
      search := search - 1;
    }
    NothingLeft(events, search + 1, refs, hops, chain);
    chain := Reversed(chain);
  }

  lemma OneBack(events: seq<Event>, search: nat, refs: set<string>, hops: nat, chain: seq<Event>)
    requires search < |events| && |chain| < hops + 1
    ensures var found := Refs(events[search]);
            Rest(events, search + 1, refs, hops, chain) ==
            if refs * found != {} then Rest(events, search, refs + found, hops, chain + [events[search]])
            else Rest(events, search, refs, hops, chain)
  {
    hide Refs, Walked, Reversed;
    WalkedStep(events, search, refs, hops + 1 - |chain|, Reversed(chain));
    ReversedAppend(chain, events[search]);
  }

  lemma WalkedStep(events: seq<Event>, search: nat, refs: set<string>, room: nat, chained: seq<Event>)
    requires search < |events| && room > 0
    ensures var found := Refs(events[search]);
            Walked(events, search + 1, refs, room, chained) ==
            if refs * found != {} then Walked(events, search, refs + found, room - 1, [events[search]] + chained)
            else Walked(events, search, refs, room, chained)
  {
    hide Refs, At;
    var found := Refs(events[search]);
    if refs * found != {} {
      AtLast(events, Below(events, search, refs + found, room - 1), search, chained);
    }
  }

  lemma AtLast(events: seq<Event>, more: seq<nat>, last: nat, chained: seq<Event>)
    requires InBounds(events, more) && last < |events|
    ensures At(events, more + [last]) + chained == At(events, more) + ([events[last]] + chained)
  {
    assert At(events, more + [last]) == At(events, more) + [events[last]];
  }

  lemma WalkedAll(events: seq<Event>, target: nat, hops: nat)
    requires target < |events|
    ensures Rest(events, target, Refs(events[target]), hops, [events[target]])
              == At(events, Chain(events, target, hops))
  {
    hide Refs, Below;
    assert Reversed([events[target]]) == [events[target]];
  }

  lemma NothingLeft(events: seq<Event>, k: nat, refs: set<string>, hops: nat, chain: seq<Event>)
    requires k <= |events| && |chain| <= hops + 1 && (k == 0 || |chain| == hops + 1)
    ensures Rest(events, k, refs, hops, chain) == Reversed(chain)
  {
    hide Reversed;
  }

  method CausalChainOf(events: seq<Event>, sequence: int, hops: int) returns (r: Result<seq<Event>>)
    ensures r == if !(1 <= hops <= MAX_HOPS) then Err(InvalidHops)
                 else if Position(events, sequence).None? then Err(MissingEvent)
                 else Ok(At(events, Chain(events, Position(events, sequence).value, hops)))
  {
    if hops < 1 || hops > MAX_HOPS {
      return Err(InvalidHops);
    }
    var indexBySequence := IndexBySequence(events);
    if sequence !in indexBySequence {
      return Err(MissingEvent);
    }
    var chain := Walk(events, indexBySequence[sequence], hops);
    return Ok(chain);
  }

  // ---- What the chain is ----

  /** One of the events at the given indices above `m` shares an entity with the event at `m`. */
  predicate Linked(events: seq<Event>, m: nat, members: seq<nat>)
    requires m < |events| && InBounds(events, members)
  {
    exists l <- members :: l > m && Share(events[m], events[l])
  }

  /** At most `room` indices below `k`, ascending. */
  predicate Fits(c: seq<nat>, k: nat, room: nat) {
    |c| <= room && (forall i, j | 0 <= i < j < |c| :: c[i] < c[j]) && forall i | 0 <= i < |c| :: c[i] < k
  }

  predicate EachLinked(events: seq<Event>, c: seq<nat>, members: seq<nat>)
    requires InBounds(events, c) && InBounds(events, members)
  {
    forall x <- c :: Linked(events, x, members)
  }

  /** No index below `k` outside `c` is linked, back to the first of `c`, or to the start unless `c` is full. */
  predicate NoneMissed(events: seq<Event>, k: nat, c: seq<nat>, full: bool, members: seq<nat>)
    requires k <= |events| && InBounds(events, members)
  {
    forall m: nat | m < k && m !in c && (!full || (c != [] && c[0] < m)) :: !Linked(events, m, members)
  }

  /**
   The indices `c` below `k` prolong the members at or above `k`: each is linked to a later one, and an index passed
   over is linked to none, back to the earliest index taken, or to the start if fewer than `room` were taken.
   */
  predicate Prolongs(events: seq<Event>, members: seq<nat>, k: nat, room: nat, c: seq<nat>)
    requires k <= |events| && InBounds(events, members)
  {
    && Fits(c, k, room)
    && EachLinked(events, c, c + members)
    && NoneMissed(events, k, c, |c| == room, c + members)
  }

  /**
   A causal chain to `target`: ascending, ending there, at most `hops + 1` long, each earlier event linked to a later
   one of the chain, no event passed over linked to any, and shorter only when the walk has reached the start.
   */
  predicate IsCausalChain(events: seq<Event>, target: nat, hops: nat, c: seq<nat>)
    requires target < |events|
  {
    && c != [] && c[|c| - 1] == target && InBounds(events, c)
    && Prolongs(events, [target], target, hops, c[..|c| - 1])
  }

  function Union(events: seq<Event>, members: seq<nat>): set<string>
    requires InBounds(events, members)
  {
    set l, r | l in members && r in Refs(events[l]) :: r
  }

  /** Sharing with the union of the members is sharing with one of them. */
  lemma LinkedIff(events: seq<Event>, m: nat, members: seq<nat>)
    requires m < |events| && InBounds(events, members) && forall l <- members :: l > m
    ensures Linked(events, m, members) <==> Union(events, members) * Refs(events[m]) != {}
  {
    hide Refs;
    if l :| l in members && l > m && Share(events[m], events[l]) {
      var x :| x in Refs(events[m]) * Refs(events[l]);
      assert x in Union(events, members) * Refs(events[m]);
    }
    if x :| x in Union(events, members) * Refs(events[m]) {
      var l :| l in members && x in Refs(events[l]);
      assert x in Refs(events[m]) * Refs(events[l]);
    }
  }

  lemma UnionWith(events: seq<Event>, m: nat, members: seq<nat>)
    requires m < |events| && InBounds(events, members)
    ensures Union(events, [m] + members) == Union(events, members) + Refs(events[m])
  {
    hide Refs;
    var all := [m] + members;
    forall r
      ensures r in Union(events, all) <==> r in Union(events, members) + Refs(events[m])
    {
      if r in Refs(events[m]) {
        assert m in all;
      }
      if l :| l in members && r in Refs(events[l]) {
        assert l in all;
      }
    }
  }

  /** Members that are not above an index do not matter to its being linked. */
  lemma LinkedAbove(events: seq<Event>, m: nat, c: seq<nat>, members: seq<nat>)
    requires m < |events| && InBounds(events, c) && InBounds(events, members) && forall i | 0 <= i < |c| :: c[i] <= m
    ensures Linked(events, m, c + members) <==> Linked(events, m, members)
  {
    hide Share;
  }

  /** The last index is passed over when it is linked to none of the members. */
  lemma ProlongsPassing(events: seq<Event>, members: seq<nat>, k: nat, room: nat, c: seq<nat>)
    requires 0 < k <= |events| && room > 0 && InBounds(events, members) && !Linked(events, k - 1, members)
    ensures Prolongs(events, members, k, room, c) <==> Prolongs(events, members, k - 1, room, c)
  {
    if Fits(c, k, room) {
      LinkedAbove(events, k - 1, c, members);
      hide Linked;
      assert k - 1 in c ==> c[|c| - 1] == k - 1;
    }
  }

  /** The last index is taken when it is linked to one of the members. */
  lemma LastTaken(events: seq<Event>, members: seq<nat>, k: nat, room: nat, c: seq<nat>)
    requires 0 < k <= |events| && room > 0 && InBounds(events, members) && Linked(events, k - 1, members)
    requires Prolongs(events, members, k, room, c)
    ensures c != [] && c[|c| - 1] == k - 1
  {
    LinkedAbove(events, k - 1, c, members);
    hide Linked;
    assert k - 1 in c;
  }

  lemma FitsLast(front: seq<nat>, k: nat, room: nat)
    requires k > 0 && room > 0
    ensures Fits(front + [k - 1], k, room) <==> Fits(front, k - 1, room - 1)
  {
    var c := front + [k - 1];
    assert c[|c| - 1] == k - 1;
    assert forall i | 0 <= i < |front| :: c[i] == front[i];
  }

  lemma MissedLast(events: seq<Event>, k: nat, front: seq<nat>, full: bool, members: seq<nat>)
    requires 0 < k <= |events| && InBounds(events, members)
    ensures NoneMissed(events, k, front + [k - 1], full, members) <==> NoneMissed(events, k - 1, front, full, members)
  {
    hide Linked;
    var c := front + [k - 1];
    forall m: nat | m < k
      ensures m !in c <==> m < k - 1 && m !in front
    {
    }
    assert front != [] ==> c[0] == front[0];
  }

  /** With the last index linked, prolonging by it and more is prolonging from it by the rest. */
  lemma ProlongsTaking(events: seq<Event>, members: seq<nat>, k: nat, room: nat, front: seq<nat>)
    requires 0 < k <= |events| && room > 0 && InBounds(events, members) && Linked(events, k - 1, members)
    ensures Prolongs(events, members, k, room, front + [k - 1]) <==>
            Prolongs(events, [k - 1] + members, k - 1, room - 1, front)
  {
    var c, all := front + [k - 1], front + ([k - 1] + members);
    assert all == c + members;
    FitsLast(front, k, room);
    if Fits(c, k, room) {
      LinkedAbove(events, k - 1, c, members);
      MissedLast(events, k, front, |c| == room, all);
      EachLinkedLast(events, front, k - 1, all);
      hide Linked, NoneMissed, Fits, EachLinked;
    } else {
      hide Linked, NoneMissed, Fits, EachLinked;
    }
  }

  lemma EachLinkedLast(events: seq<Event>, front: seq<nat>, last: nat, members: seq<nat>)
    requires InBounds(events, front + [last]) && InBounds(events, members)
    ensures InBounds(events, front) && last < |events|
    ensures EachLinked(events, front + [last], members) <==>
            EachLinked(events, front, members) && Linked(events, last, members)
  {
    var c := front + [last];
    assert c[|front|] == last && forall i | 0 <= i < |front| :: c[i] == front[i];
    hide Linked;
  }

  lemma NothingBelow(events: seq<Event>, members: seq<nat>, k: nat, room: nat, c: seq<nat>)
    requires k <= |events| && InBounds(events, members) && (k == 0 || room == 0)
    ensures Prolongs(events, members, k, room, c) <==> c == []
  {
    hide Linked;
    if c != [] && |c| <= room {
      assert !(c[0] < k);
    }
  }

  /** What the walk takes below `k` is the one way to prolong the members. */
  lemma {:induction false} BelowIff(events: seq<Event>, members: seq<nat>, k: nat, room: nat, c: seq<nat>)
    requires k <= |events| && InBounds(events, members) && forall l <- members :: l >= k
    ensures Prolongs(events, members, k, room, c) <==> c == Below(events, k, Union(events, members), room)
    decreases k
  {
    hide Refs, Union, Linked, Prolongs;
    if room == 0 || k == 0 {
      NothingBelow(events, members, k, room, c);
    } else {
      LinkedIff(events, k - 1, members);
      if !Linked(events, k - 1, members) {
        ProlongsPassing(events, members, k, room, c);
        BelowIff(events, members, k - 1, room, c);
      } else {
        UnionWith(events, k - 1, members);
        if Prolongs(events, members, k, room, c) {
          LastTaken(events, members, k, room, c);
        }
        if c != [] && c[|c| - 1] == k - 1 {
          var front := c[..|c| - 1];
          assert c == front + [k - 1];
          BelowIff(events, [k - 1] + members, k - 1, room - 1, front);
          ProlongsTaking(events, members, k, room, front);
        }
      }
    }
  }

  /** The walk's result is the one causal chain to the target. */
  lemma ChainIff(events: seq<Event>, target: nat, hops: nat, c: seq<nat>)
    requires target < |events|
    ensures IsCausalChain(events, target, hops, c) <==> c == Chain(events, target, hops)
  {
    UnionWith(events, target, []);
    assert [target] + [] == [target] && Union(events, []) + Refs(events[target]) == Refs(events[target]);
    hide Prolongs, Below, Refs, Union;
    if c != [] && c[|c| - 1] == target {
      BelowIff(events, [target], target, hops, c[..|c| - 1]);
      assert c == c[..|c| - 1] + [target];
    }
  }

  /** Among events in ascending order of sequence number, the chain is too, and ends with the number asked for. */
  lemma ChainAscends(events: seq<Event>, target: nat, hops: nat)
    requires target < |events|
    requires forall i, j | 0 <= i < j < |events| ::
               events[i].sequence.Some? && events[j].sequence.Some?
                   && events[i].sequence.value < events[j].sequence.value
    ensures var chain := At(events, Chain(events, target, hops));
            && 1 <= |chain| <= hops + 1 && chain[|chain| - 1] == events[target]
            && forall i, j | 0 <= i < j < |chain| :: chain[i].sequence.value < chain[j].sequence.value
  {
    ChainIff(events, target, hops, Chain(events, target, hops));
    hide Below, Linked;
  }
}
