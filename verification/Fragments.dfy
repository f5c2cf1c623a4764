/** Assembling streamed tool-call fragments: the `ToolCallDelta` arm of the event loop,
    `merge_stable_fragment` and `finish_tool_calls` of `crates/runtime/src/lib.rs`. */
module Fragments {
  import opened Basics
  import opened Conversations
  import opened Projection

  datatype Fragment = Fragment(index: nat, id: Option<string>, name: Option<string>, arguments: string)

  datatype PartialCall = PartialCall(id: Option<string>, name: Option<string>, arguments: string)

  type Partials = map<nat, PartialCall>

  datatype FragmentFailure =
    | ChangedMidStream(index: nat)
    | IndexGap
    | MissingId(index: nat)
    | MissingName(index: nat)
    | MalformedCallArguments(index: nat)
    | BadCallId(index: nat)

  /** `merge_stable_fragment`: the first value sticks, a different later one is an error (None). */
  function MergeStable(current: Option<string>, incoming: Option<string>): Option<Option<string>> {
    match incoming
    case None => Some(current)
    case Some(text) => if current.Some? && current.value != text then None else Some(incoming)
  }

  function AddFragment(partials: Partials, fragment: Fragment): Result<Partials, FragmentFailure> {
    var partial := if fragment.index in partials then partials[fragment.index] else PartialCall(None, None, "");
    var id := MergeStable(partial.id, fragment.id);
    var name := MergeStable(partial.name, fragment.name);
    if id.None? || name.None? then Err(ChangedMidStream(fragment.index))
    else Ok(partials[fragment.index := PartialCall(id.value, name.value, partial.arguments + fragment.arguments)])
  }

  /** The accumulated partial calls after a stream of fragments. */
  function Collect(fragments: seq<Fragment>): Result<Partials, FragmentFailure> {
    if fragments == [] then Ok(map[])
    else
      var before :- Collect(fragments[..|fragments| - 1]);
      AddFragment(before, fragments[|fragments| - 1])
  }

  // ----- What collecting means, index by index -----

  ghost predicate Agree(a: Option<string>, b: Option<string>) {
    a.Some? && b.Some? ==> a == b
  }

  /** No two fragments of one index disagree about its id or name. */
  ghost predicate Stable(fragments: seq<Fragment>) {
    forall i, j :: 0 <= i < j < |fragments| && fragments[i].index == fragments[j].index ==>
      Agree(fragments[i].id, fragments[j].id) && Agree(fragments[i].name, fragments[j].name)
  }

  /** The fragments of one index, in arrival order. */
  function OfIndex(fragments: seq<Fragment>, k: nat): seq<Fragment> {
    if fragments == [] then []
    else
      var last := fragments[|fragments| - 1];
      var front := OfIndex(fragments[..|fragments| - 1], k);
      if last.index == k then front + [last] else front
  }

  function ArgumentText(fragments: seq<Fragment>): string {
    if fragments == [] then ""
    else ArgumentText(fragments[..|fragments| - 1]) + fragments[|fragments| - 1].arguments
  }

  function FirstId(fragments: seq<Fragment>): Option<string> {
    if fragments == [] then None else if fragments[0].id.Some? then fragments[0].id else FirstId(fragments[1..])
  }

  function FirstName(fragments: seq<Fragment>): Option<string> {
    if fragments == [] then None else if fragments[0].name.Some? then fragments[0].name else FirstName(fragments[1..])
  }

  lemma {:induction false} FirstSnoc(front: seq<Fragment>, last: Fragment)
    ensures FirstId(front + [last]) == if FirstId(front).Some? then FirstId(front) else last.id
    ensures FirstName(front + [last]) == if FirstName(front).Some? then FirstName(front) else last.name
  {
    if front != [] {
      assert (front + [last])[1..] == front[1..] + [last];
      FirstSnoc(front[1..], last);
    } else {
      assert front + [last] == [last];
    }
  }

  /** The one partial call that a list of same-index fragments stands for. */
  function Summary(fragments: seq<Fragment>): PartialCall {
    PartialCall(FirstId(fragments), FirstName(fragments), ArgumentText(fragments))
  }

  lemma SummarySnoc(front: seq<Fragment>, last: Fragment)
    ensures Summary(front + [last]).arguments == Summary(front).arguments + last.arguments
    ensures Summary(front + [last]).id == if FirstId(front).Some? then FirstId(front) else last.id
    ensures Summary(front + [last]).name == if FirstName(front).Some? then FirstName(front) else last.name
  {
    FirstSnoc(front, last);
    assert (front + [last])[..|front|] == front;
  }

  lemma {:induction false} FirstComesFrom(fragments: seq<Fragment>)
    ensures FirstId(fragments).Some? ==> exists i :: 0 <= i < |fragments| && fragments[i].id == FirstId(fragments)
    ensures FirstId(fragments).None? ==> forall i :: 0 <= i < |fragments| ==> fragments[i].id.None?
    ensures FirstName(fragments).Some? ==> exists i :: 0 <= i < |fragments| && fragments[i].name == FirstName(fragments)
    ensures FirstName(fragments).None? ==> forall i :: 0 <= i < |fragments| ==> fragments[i].name.None?
  {
    if fragments != [] {
      FirstComesFrom(fragments[1..]);
      if FirstId(fragments[1..]).Some? {
        var i :| 0 <= i < |fragments[1..]| && fragments[1..][i].id == FirstId(fragments[1..]);
        assert fragments[i + 1].id == FirstId(fragments[1..]);
      }
      if FirstName(fragments[1..]).Some? {
        var i :| 0 <= i < |fragments[1..]| && fragments[1..][i].name == FirstName(fragments[1..]);
        assert fragments[i + 1].name == FirstName(fragments[1..]);
      }
      if fragments[0].id.Some? { assert fragments[0].id == FirstId(fragments); }
      if fragments[0].name.Some? { assert fragments[0].name == FirstName(fragments); }
    }
  }

  lemma {:induction false} OfIndexMembers(fragments: seq<Fragment>, k: nat)
    ensures forall f :: f in OfIndex(fragments, k) <==> f in fragments && f.index == k
  {
    if fragments != [] {
      OfIndexMembers(fragments[..|fragments| - 1], k);
      assert fragments == fragments[..|fragments| - 1] + [fragments[|fragments| - 1]];
    }
  }

  ghost predicate RepresentsAt(partials: Partials, fragments: seq<Fragment>, k: nat) {
    && (k in partials <==> OfIndex(fragments, k) != [])
    && (k in partials ==> partials[k] == Summary(OfIndex(fragments, k)))
  }

  /** `partials` holds, for each index that occurs, the summary of that index's own fragments. */
  ghost predicate Represents(partials: Partials, fragments: seq<Fragment>) {
    forall k: nat :: RepresentsAt(partials, fragments, k)
  }

  lemma OfIndexSnoc(front: seq<Fragment>, last: Fragment, k: nat)
    ensures OfIndex(front + [last], k) == if last.index == k then OfIndex(front, k) + [last] else OfIndex(front, k)
  {
    assert (front + [last])[..|front|] == front;
  }

  lemma AddAgrees(partials: Partials, front: seq<Fragment>, last: Fragment)
    requires RepresentsAt(partials, front, last.index)
    ensures AddFragment(partials, last).Ok? <==>
            Agree(FirstId(OfIndex(front, last.index)), last.id) && Agree(FirstName(OfIndex(front, last.index)), last.name)
    ensures AddFragment(partials, last).Ok? ==>
              RepresentsAt(AddFragment(partials, last).value, front + [last], last.index)
  {
    OfIndexSnoc(front, last, last.index);
    SummarySnoc(OfIndex(front, last.index), last);
  }

  lemma AddRepresents(partials: Partials, front: seq<Fragment>, last: Fragment)
    requires Represents(partials, front)
    ensures AddFragment(partials, last).Ok? <==>
            Agree(FirstId(OfIndex(front, last.index)), last.id) && Agree(FirstName(OfIndex(front, last.index)), last.name)
    ensures AddFragment(partials, last).Ok? ==> Represents(AddFragment(partials, last).value, front + [last])
  {
    assert RepresentsAt(partials, front, last.index);
    AddAgrees(partials, front, last);
    if AddFragment(partials, last).Ok? {
      forall k: nat ensures RepresentsAt(AddFragment(partials, last).value, front + [last], k) {
        assert RepresentsAt(partials, front, k);
        OfIndexSnoc(front, last, k);
      }
    }
  }

  /** Collecting succeeds exactly on stable streams, and what it holds for an index depends on
      that index's own fragments only. */
  lemma {:induction false} CollectIsPerIndex(fragments: seq<Fragment>)
    ensures Collect(fragments).Ok? <==> Stable(fragments)
    ensures Collect(fragments).Ok? ==> Represents(Collect(fragments).value, fragments)
  {
    if fragments != [] {
      var front, last := fragments[..|fragments| - 1], fragments[|fragments| - 1];
      assert fragments == front + [last];
      CollectIsPerIndex(front);
      if Stable(front) {
        AddRepresents(Collect(front).value, front, last);
        StableSnoc(front, last);
      } else {
        var i, j :| 0 <= i < j < |front| && front[i].index == front[j].index &&
          !(Agree(front[i].id, front[j].id) && Agree(front[i].name, front[j].name));
        assert fragments[i] == front[i] && fragments[j] == front[j];
      }
    }
  }

  lemma StableSnoc(front: seq<Fragment>, last: Fragment)
    requires Stable(front)
    ensures Stable(front + [last]) <==>
            Agree(FirstId(OfIndex(front, last.index)), last.id) && Agree(FirstName(OfIndex(front, last.index)), last.name)
  {
    var own, whole := OfIndex(front, last.index), front + [last];
    FirstComesFrom(own);
    OfIndexMembers(front, last.index);
    if FirstId(own).Some? {
      var i :| 0 <= i < |own| && own[i].id == FirstId(own);
      var p :| 0 <= p < |front| && front[p] == own[i];
      assert whole[p] == own[i] && whole[|front|] == last;
    }
    if FirstName(own).Some? {
      var i :| 0 <= i < |own| && own[i].name == FirstName(own);
      var p :| 0 <= p < |front| && front[p] == own[i];
      assert whole[p] == own[i] && whole[|front|] == last;
    }
    if Agree(FirstId(own), last.id) && Agree(FirstName(own), last.name) {
      forall i, j | 0 <= i < j < |whole| && whole[i].index == whole[j].index
        ensures Agree(whole[i].id, whole[j].id) && Agree(whole[i].name, whole[j].name)
      {
        if j < |front| {
          assert front[i].index == front[j].index;
        } else {
          AgreesWithFirst(front, i);
        }
      }
    }
  }

  lemma MembersAgree(fragments: seq<Fragment>, x: Fragment, y: Fragment)
    requires Stable(fragments) && x in fragments && y in fragments && x.index == y.index
    ensures Agree(x.id, y.id) && Agree(x.name, y.name)
  {
    var p :| 0 <= p < |fragments| && fragments[p] == x;
    var q :| 0 <= q < |fragments| && fragments[q] == y;
  }

  lemma AgreesWithFirst(front: seq<Fragment>, i: nat)
    requires Stable(front) && i < |front|
    ensures front[i].id.Some? ==> front[i].id == FirstId(OfIndex(front, front[i].index))
    ensures front[i].name.Some? ==> front[i].name == FirstName(OfIndex(front, front[i].index))
  {
    var x := front[i];
    var own := OfIndex(front, x.index);
    OfIndexMembers(front, x.index);
    FirstComesFrom(own);
    assert x in own;
    if x.id.Some? {
      var a :| 0 <= a < |own| && own[a].id == FirstId(own);
      MembersAgree(front, x, own[a]);
    }
    if x.name.Some? {
      var a :| 0 <= a < |own| && own[a].name == FirstName(own);
      MembersAgree(front, x, own[a]);
    }
  }

  /** `b` keeps every index's own fragments in the order they have in `a`. */
  ghost predicate Interleaves(a: seq<Fragment>, b: seq<Fragment>) {
    forall k: nat :: SameOwn(a, b, k)
  }

  ghost predicate SameOwn(a: seq<Fragment>, b: seq<Fragment>, k: nat) {
    OfIndex(a, k) == OfIndex(b, k)
  }

  /** Fragments of different indexes may be interleaved in any way that keeps each index's own
      order: nothing observable changes. */
  lemma InterleavingIsIrrelevant(a: seq<Fragment>, b: seq<Fragment>)
    requires Interleaves(a, b)
    ensures Collect(a).Ok? <==> Collect(b).Ok?
    ensures Collect(a).Ok? ==> Collect(a) == Collect(b)
  {
    CollectIsPerIndex(a);
    CollectIsPerIndex(b);
    assert Interleaves(b, a) by {
      forall k: nat ensures SameOwn(b, a, k) { assert SameOwn(a, b, k); }
    }
    if Stable(a) { StableByIndex(a, b); }
    if Stable(b) { StableByIndex(b, a); }
    if Collect(a).Ok? { SamePartials(Collect(a).value, Collect(b).value, a, b); }
  }

  lemma SamePartials(m: Partials, n: Partials, a: seq<Fragment>, b: seq<Fragment>)
    requires Interleaves(a, b) && Represents(m, a) && Represents(n, b)
    ensures m == n
  {
    forall k: nat ensures (k in m <==> k in n) && (k in m ==> m[k] == n[k]) {
      assert SameOwn(a, b, k) && RepresentsAt(m, a, k) && RepresentsAt(n, b, k);
    }
    assert m.Keys == n.Keys;
  }

  lemma StableByIndex(a: seq<Fragment>, b: seq<Fragment>)
    requires Interleaves(a, b) && Stable(a)
    ensures Stable(b)
  {
    forall i, j | 0 <= i < j < |b| && b[i].index == b[j].index
      ensures Agree(b[i].id, b[j].id) && Agree(b[i].name, b[j].name)
    {
      OfIndexMembers(a, b[i].index);
      OfIndexMembers(b, b[i].index);
      assert SameOwn(a, b, b[i].index);
      assert b[i] in OfIndex(b, b[i].index) && b[j] in OfIndex(b, b[i].index);
      MembersAgree(a, b[i], b[j]);
    }
  }

  // ----- Finishing -----

  /** The keys, in order, are 0, 1, ..., n - 1. */
  predicate Contiguous(partials: Partials) {
    forall k :: 0 <= k < |partials| ==> k in partials
  }

  function FinishCall(codec: Codec, index: nat, partial: PartialCall): Result<ToolCall, FragmentFailure> {
    if partial.id.None? then Err(MissingId(index))
    else if partial.name.None? then Err(MissingName(index))
    else
      var arguments := if partial.arguments == "" then Some(map[]) else codec.decode(partial.arguments);
      if arguments.None? then Err(MalformedCallArguments(index))
      else if !ValidId(partial.id.value) then Err(BadCallId(index))
      else Ok(ToolCall(partial.id.value, partial.name.value, arguments.value))
  }

  function FinishFrom(codec: Codec, partials: Partials, index: nat): (r: Result<seq<ToolCall>, FragmentFailure>)
    requires Contiguous(partials) && index <= |partials|
    ensures r.Ok? ==> |r.value| == |partials| - index
    ensures r.Ok? ==> forall i :: 0 <= i < |r.value| ==> FinishCall(codec, index + i, partials[index + i]) == Ok(r.value[i])
    decreases |partials| - index
  {
    if index == |partials| then Ok([])
    else
      var first :- FinishCall(codec, index, partials[index]);
      Prepend([first], FinishFrom(codec, partials, index + 1))
  }

  /** `finish_tool_calls`. */
  function FinishCalls(codec: Codec, partials: Partials): Result<seq<ToolCall>, FragmentFailure> {
    if !Contiguous(partials) then Err(IndexGap) else FinishFrom(codec, partials, 0)
  }

  function Range(n: nat): (range: set<nat>)
    ensures |range| == n
    ensures forall k: nat :: k in range <==> k < n
  {
    if n == 0 then {} else Range(n - 1) + {n - 1}
  }

  /** The length comparison in the source is an exact gap test: it accepts the key sets
      {0, ..., n - 1} and no others. */
  lemma ContiguousMeansNoGap(partials: Partials)
    ensures Contiguous(partials) <==> exists n: nat :: partials.Keys == Range(n)
  {
    if Contiguous(partials) {
      SubsetOfEqualSize(Range(|partials|), partials.Keys);
      assert partials.Keys == Range(|partials|);
    } else if n: nat :| partials.Keys == Range(n) {
      assert |partials| == |partials.Keys|;
    }
  }

  lemma {:induction false} FinishAll(codec: Codec, partials: Partials, calls: seq<ToolCall>, index: nat)
    requires Contiguous(partials) && index <= |partials| == |calls|
    requires forall k :: 0 <= k < |calls| ==> FinishCall(codec, k, partials[k]) == Ok(calls[k])
    ensures FinishFrom(codec, partials, index) == Ok(calls[index..])
    decreases |partials| - index
  {
    if index < |partials| {
      FinishAll(codec, partials, calls, index + 1);
      assert [calls[index]] + calls[index + 1..] == calls[index..];
    }
  }

  lemma ContiguousKeys(partials: Partials)
    requires Contiguous(partials)
    ensures forall k :: k in partials ==> k < |partials|
  {
    var range := Range(|partials|);
    assert range <= partials.Keys;
    SubsetOfEqualSize(range, partials.Keys);
  }

  // ----- What finishing reads -----

  /** The pieces `own` of one index spell this call: its id and name each stand in some piece, and
      the joined argument text decodes to its arguments, no text at all being none. */
  ghost predicate SpellsCall(codec: Codec, own: seq<Fragment>, call: ToolCall) {
    && (exists i :: 0 <= i < |own| && own[i].id == Some(call.id))
    && (exists i :: 0 <= i < |own| && own[i].name == Some(call.name))
    && ValidId(call.id)
    && (if ArgumentText(own) == "" then call.arguments == map[] else codec.decode(ArgumentText(own)) == Some(call.arguments))
  }

  /** The fragments spell these calls, in the order of their indexes and without a gap. */
  ghost predicate ReadAs(codec: Codec, fragments: seq<Fragment>, calls: seq<ToolCall>) {
    && (forall f :: f in fragments ==> f.index < |calls|)
    && (forall k :: 0 <= k < |calls| ==> SpellsCall(codec, OfIndex(fragments, k), calls[k]))
  }

  lemma FirstIsAny(fragments: seq<Fragment>, k: nat)
    requires Stable(fragments)
    ensures forall i :: 0 <= i < |OfIndex(fragments, k)| && OfIndex(fragments, k)[i].id.Some? ==>
              OfIndex(fragments, k)[i].id == FirstId(OfIndex(fragments, k))
    ensures forall i :: 0 <= i < |OfIndex(fragments, k)| && OfIndex(fragments, k)[i].name.Some? ==>
              OfIndex(fragments, k)[i].name == FirstName(OfIndex(fragments, k))
  {
    var own := OfIndex(fragments, k);
    OfIndexMembers(fragments, k);
    forall i | 0 <= i < |own|
      ensures own[i].id.Some? ==> own[i].id == FirstId(own)
      ensures own[i].name.Some? ==> own[i].name == FirstName(own)
    {
      assert own[i] in own;
      var p :| 0 <= p < |fragments| && fragments[p] == own[i];
      AgreesWithFirst(fragments, p);
    }
  }

  lemma FinishedSpells(codec: Codec, fragments: seq<Fragment>, k: nat, call: ToolCall)
    requires Stable(fragments)
    ensures FinishCall(codec, k, Summary(OfIndex(fragments, k))) == Ok(call) <==> SpellsCall(codec, OfIndex(fragments, k), call)
  {
    FirstIsAny(fragments, k);
    FirstComesFrom(OfIndex(fragments, k));
  }

  /** A stream of fragments is finished into calls exactly if it spells them. */
  lemma FinishedIsRead(codec: Codec, fragments: seq<Fragment>, calls: seq<ToolCall>)
    requires Stable(fragments)
    ensures Collect(fragments).Ok?
    ensures FinishCalls(codec, Collect(fragments).value) == Ok(calls) <==> ReadAs(codec, fragments, calls)
  {
    CollectIsPerIndex(fragments);
    var partials := Collect(fragments).value;
    if FinishCalls(codec, partials) == Ok(calls) {
      ContiguousKeys(partials);
      forall f | f in fragments ensures f.index < |calls| {
        OfIndexMembers(fragments, f.index);
        assert f in OfIndex(fragments, f.index) && RepresentsAt(partials, fragments, f.index);
      }
      forall k | 0 <= k < |calls| ensures SpellsCall(codec, OfIndex(fragments, k), calls[k]) {
        assert FinishCall(codec, k, partials[k]) == Ok(calls[k]) && RepresentsAt(partials, fragments, k);
        FinishedSpells(codec, fragments, k, calls[k]);
      }
    }
    if ReadAs(codec, fragments, calls) {
      ReadIsFinished(codec, fragments, calls);
    }
  }

  lemma ReadIsFinished(codec: Codec, fragments: seq<Fragment>, calls: seq<ToolCall>)
    requires Stable(fragments) && ReadAs(codec, fragments, calls) && Collect(fragments).Ok?
    ensures FinishCalls(codec, Collect(fragments).value) == Ok(calls)
  {
    CollectIsPerIndex(fragments);
    var partials := Collect(fragments).value;
    forall k: nat ensures k in partials <==> k < |calls| {
      OfIndexMembers(fragments, k);
      assert RepresentsAt(partials, fragments, k);
      if k in partials { assert OfIndex(fragments, k)[0] in fragments; }
      if k < |calls| { assert SpellsCall(codec, OfIndex(fragments, k), calls[k]); }
    }
    assert partials.Keys == Range(|calls|);
    ContiguousMeansNoGap(partials);
    assert |partials| == |partials.Keys| == |calls|;
    forall k | 0 <= k < |calls| ensures FinishCall(codec, k, partials[k]) == Ok(calls[k]) {
      assert RepresentsAt(partials, fragments, k) && SpellsCall(codec, OfIndex(fragments, k), calls[k]);
      FinishedSpells(codec, fragments, k, calls[k]);
    }
    FinishAll(codec, partials, calls, 0);
    assert calls[0..] == calls;
  }

  // ----- Reassembly -----

  /** `fragments` is some splitting and interleaving of `calls`: every fragment belongs to a
      call, each call is named and identified at least once and never contradicted, and the
      argument pieces of each call spell its JSON text (nothing at all for no arguments). */
  ghost predicate Splits(codec: Codec, fragments: seq<Fragment>, calls: seq<ToolCall>) {
    && (forall i :: 0 <= i < |fragments| ==> SplitOf(fragments[i], calls))
    && (forall k :: 0 <= k < |calls| ==> Spells(codec, OfIndex(fragments, k), calls[k]))
  }

  ghost predicate SplitOf(fragment: Fragment, calls: seq<ToolCall>) {
    && fragment.index < |calls|
    && Agree(fragment.id, Some(calls[fragment.index].id))
    && Agree(fragment.name, Some(calls[fragment.index].name))
  }

  ghost predicate Spells(codec: Codec, own: seq<Fragment>, call: ToolCall) {
    && (exists i :: 0 <= i < |own| && own[i].id.Some?)
    && (exists i :: 0 <= i < |own| && own[i].name.Some?)
    && (|| ArgumentText(own) == codec.encode(call.arguments)
        || (ArgumentText(own) == "" && call.arguments == map[]))
  }

  /** Any splitting and any interleaving of a list of calls is reassembled into that list. */
  lemma Reassembly(codec: Codec, fragments: seq<Fragment>, calls: seq<ToolCall>)
    requires codec.Faithful() && Splits(codec, fragments, calls)
    requires forall k :: 0 <= k < |calls| ==> ValidId(calls[k].id)
    ensures Collect(fragments).Ok?
    ensures FinishCalls(codec, Collect(fragments).value) == Ok(calls)
  {
    forall i, j | 0 <= i < j < |fragments| && fragments[i].index == fragments[j].index
      ensures Agree(fragments[i].id, fragments[j].id) && Agree(fragments[i].name, fragments[j].name)
    {
      assert SplitOf(fragments[i], calls) && SplitOf(fragments[j], calls);
    }
    forall f | f in fragments ensures f.index < |calls| {
      var i :| 0 <= i < |fragments| && fragments[i] == f;
      assert SplitOf(fragments[i], calls);
    }
    forall k | 0 <= k < |calls| ensures SpellsCall(codec, OfIndex(fragments, k), calls[k]) {
      SplitSpells(codec, fragments, calls, k);
    }
    FinishedIsRead(codec, fragments, calls);
  }

  lemma SplitSpells(codec: Codec, fragments: seq<Fragment>, calls: seq<ToolCall>, k: nat)
    requires codec.Faithful() && Splits(codec, fragments, calls) && k < |calls| && ValidId(calls[k].id)
    ensures SpellsCall(codec, OfIndex(fragments, k), calls[k])
  {
    var own := OfIndex(fragments, k);
    OfIndexMembers(fragments, k);
    assert Spells(codec, own, calls[k]);
    forall i | 0 <= i < |own| ensures SplitOf(own[i], calls) && own[i].index == k {
      assert own[i] in own;
    }
    var a :| 0 <= a < |own| && own[a].id.Some?;
    var b :| 0 <= b < |own| && own[b].name.Some?;
    assert own[a].id == Some(calls[k].id) && own[b].name == Some(calls[k].name);
  }
}
