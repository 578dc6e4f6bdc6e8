/**
 * The tool-call merge of the router's fold mode: streamed tool-call fragments
 * are gathered into one slot per `index` in a dict keyed by that index. The
 * argument pieces of a slot are concatenated, its name is the last non-empty
 * one, its other keys are last-writer-wins, and fragments without an index are
 * ignored. The slots come out in the order their index first appeared.
 */
module ToolMerge {
  import opened Wrappers
  import opened Json

  // ----- dict keys -----

  /** Lists and dicts cannot be dict keys: looking one up raises TypeError. */
  predicate Hashable(v: Value) {
    !v.Arr? && !v.Obj?
  }

  /** Python key equality: numbers and booleans compare by value (`True == 1 == 1.0`), the rest structurally. */
  predicate SameIndex(a: Value, b: Value) {
    if IsNumber(a) && IsNumber(b) then RealOf(a) == RealOf(b) else a == b
  }

  /** One entry of `merged_tool_calls`: `{"index": …, "function": {"name": …, "arguments": …}, …}`. */
  datatype Slot = Slot(index: Value, name: Value, args: string, extras: Dict) {
    function ToValue(): Value {
      Obj([("index", index), ("function", Obj([("name", name), ("arguments", Str(args))]))] + extras)
    }
  }

  /** A fresh slot for a new index. */
  function EmptySlot(k: Value): Slot {
    Slot(k, Str(""), "", [])
  }

  function Indices(slots: seq<Slot>): seq<Value> {
    seq(|slots|, i requires 0 <= i < |slots| => slots[i].index)
  }

  /** No two slots share an index. */
  predicate DistinctSlots(slots: seq<Slot>) {
    forall i, j | 0 <= i < j < |slots| :: !SameIndex(slots[i].index, slots[j].index)
  }

  /** The position of the slot whose key equals `k`. */
  function FindSlot(slots: seq<Slot>, k: Value): (r: Option<nat>)
    ensures r.Some? ==> r.value < |slots| && SameIndex(slots[r.value].index, k)
    ensures r.Some? ==> forall j | 0 <= j < r.value :: !SameIndex(slots[j].index, k)
    ensures r.None? ==> forall j | 0 <= j < |slots| :: !SameIndex(slots[j].index, k)
    decreases |slots|
  {
    if slots == [] then None
    else if SameIndex(slots[0].index, k) then Some(0)
    else
      match FindSlot(slots[1..], k)
      case None => None
      case Some(j) => Some(j + 1)
  }

  /** The slot stored under `k`, if any. */
  function SlotFor(slots: seq<Slot>, k: Value): Option<Slot> {
    match FindSlot(slots, k)
    case Some(j) => Some(slots[j])
    case None => None
  }

  // ----- one fragment -----

  /** `slot["function"]["arguments"] += fn["arguments"]` when `"arguments" in fn`. */
  function ArgsAfter(args: string, fn: Value): Result<string, Fault> {
    var has :- In("arguments", fn);
    if !has then Success(args)
    else
      var a :- Subscript(fn, "arguments");
      if a.Str? then Success(args + a.s) else Failure(TypeError)
  }

  /** `slot["function"]["name"] = fn["name"]` when that name is present and truthy. */
  function NameAfter(name: Value, fn: Value): Result<Value, Fault> {
    var has :- In("name", fn);
    if !has then Success(name)
    else
      var v :- Subscript(fn, "name");
      Success(if Truthy(v) then v else name)
  }

  function MergeFunction(s: Slot, tc: Dict): Result<Slot, Fault> {
    match Lookup(tc, "function")
    case None => Success(s)
    case Some(fn) =>
      var args :- ArgsAfter(s.args, fn);
      var name :- NameAfter(s.name, fn);
      Success(s.(name := name, args := args))
  }

  /** `for key, value in tc.items(): if key not in ["function", "index"]: slot[key] = value`. */
  function CopyExtras(e: Dict, fields: Dict): Dict
    decreases |fields|
  {
    if fields == [] then e
    else
      var prev := CopyExtras(e, fields[..|fields| - 1]);
      var last := fields[|fields| - 1];
      if last.0 == "function" || last.0 == "index" then prev else Set(prev, last.0, last.1)
  }

  function MergeInto(s: Slot, tc: Dict): Result<Slot, Fault> {
    var s1 :- MergeFunction(s, tc);
    Success(s1.(extras := CopyExtras(s1.extras, tc)))
  }

  /** The index a fragment is filed under; None for a fragment the merge ignores. */
  function IndexOf(tc: Value): Option<Value> {
    if tc.Obj? then
      match Lookup(tc.fields, "index")
      case Some(v) => if v == Null then None else Some(v)
      case None => None
    else None
  }

  /** One fragment of `delta["tool_calls"]`. */
  function ToolCallStep(slots: seq<Slot>, tc: Value): Result<seq<Slot>, Fault> {
    var idx :- Get(tc, "index");
    if idx.None? || idx.value == Null then Success(slots)
    else if !Hashable(idx.value) then Failure(TypeError)
    else
      match FindSlot(slots, idx.value)
      case Some(j) =>
        var s :- MergeInto(slots[j], tc.fields);
        Success(slots[j := s])
      case None =>
        var s :- MergeInto(EmptySlot(idx.value), tc.fields);
        Success(slots + [s])
  }

  /** All fragments, in arrival order. */
  function ToolCalls(slots: seq<Slot>, items: seq<Value>): Result<seq<Slot>, Fault>
    decreases |items|
  {
    if items == [] then Success(slots)
    else
      var prev :- ToolCalls(slots, items[..|items| - 1]);
      ToolCallStep(prev, items[|items| - 1])
  }

  // ----- the imperative merge -----

  method CopyExtrasLoop(e: Dict, fields: Dict) returns (out: Dict)
    ensures out == CopyExtras(e, fields)
  {
    out := e;
    for i := 0 to |fields|
      invariant out == CopyExtras(e, fields[..i])
    {
      assert fields[..i + 1][..i] == fields[..i];
      var (key, value) := fields[i];
      if key != "function" && key != "index" {
        out := Set(out, key, value);
      }
    }
    assert fields[..|fields|] == fields;
  }

  method MergeFragment(slots: seq<Slot>, tc: Value) returns (r: Result<seq<Slot>, Fault>)
    ensures r == ToolCallStep(slots, tc)
  {
    var idx := Get(tc, "index");
    if idx.Failure? {
      return Failure(idx.error);
    }
    if idx.value.None? || idx.value.value == Null {
      return Success(slots);
    }
    var index := idx.value.value;
    if index.Arr? || index.Obj? {
      return Failure(TypeError);
    }
    var pos := FindSlot(slots, index);
    var merged := slots;
    var j: nat;
    if pos.None? {
      merged := slots + [EmptySlot(index)];
      j := |slots|;
    } else {
      j := pos.value;
    }
    var s := MergeFunction(merged[j], tc.fields);
    if s.Failure? {
      return Failure(s.error);
    }
    var extras := CopyExtrasLoop(s.value.extras, tc.fields);
    merged := merged[j := s.value.(extras := extras)];
    if pos.None? {
      assert merged == slots + [s.value.(extras := extras)];
    }
    return Success(merged);
  }

  lemma {:induction false} ToolCallsFailureSticks(slots: seq<Slot>, items: seq<Value>, n: nat)
    requires n <= |items| && ToolCalls(slots, items[..n]).Failure?
    ensures ToolCalls(slots, items) == ToolCalls(slots, items[..n])
    decreases |items| - n
  {
    if n < |items| {
      assert items[..n + 1][..n] == items[..n];
      ToolCallsFailureSticks(slots, items, n + 1);
    } else {
      assert items[..n] == items;
    }
  }

  lemma ToolCallsNext(slots: seq<Slot>, items: seq<Value>, i: nat, merged: seq<Slot>)
    requires i < |items| && ToolCalls(slots, items[..i]) == Success(merged)
    ensures ToolCalls(slots, items[..i + 1]) == ToolCallStep(merged, items[i])
  {
    assert items[..i + 1][..i] == items[..i];
  }

  /** Merging two runs of fragments one after the other is merging their concatenation. */
  lemma {:induction false} ToolCallsAppend(slots: seq<Slot>, a: seq<Value>, b: seq<Value>)
    ensures ToolCalls(slots, a + b) ==
            match ToolCalls(slots, a)
            case Failure(e) => Failure(e)
            case Success(mid) => ToolCalls(mid, b)
    decreases |b|
  {
    if b == [] {
      assert a + b == a;
    } else {
      var b' := b[..|b| - 1];
      assert (a + b)[..|a + b| - 1] == a + b';
      assert (a + b)[|a + b| - 1] == b[|b| - 1];
      ToolCallsAppend(slots, a, b');
    }
  }

  method MergeFragments(slots: seq<Slot>, items: seq<Value>) returns (r: Result<seq<Slot>, Fault>)
    ensures r == ToolCalls(slots, items)
  {
    var merged := slots;
    for i := 0 to |items|
      invariant ToolCalls(slots, items[..i]) == Success(merged)
    {
      ToolCallsNext(slots, items, i, merged);
      var step := MergeFragment(merged, items[i]);
      if step.Failure? {
        ToolCallsFailureSticks(slots, items, i + 1);
        return Failure(step.error);
      }
      merged := step.value;
    }
    assert items[..|items|] == items;
    return Success(merged);
  }

  // ----- order of the slots -----

  /** The key a fragment adds, when no key seen so far equals it. */
  function NewIndex(seen: seq<Value>, tc: Value): seq<Value> {
    match IndexOf(tc)
    case Some(k) => if exists j | 0 <= j < |seen| :: SameIndex(seen[j], k) then [] else [k]
    case None => []
  }

  /** The keys the fragments add, each at its first appearance. */
  function FirstAppearances(seen: seq<Value>, items: seq<Value>): seq<Value>
    decreases |items|
  {
    if items == [] then []
    else
      var prev := FirstAppearances(seen, items[..|items| - 1]);
      prev + NewIndex(seen + prev, items[|items| - 1])
  }

  lemma FindSlotByIndices(slots: seq<Slot>, k: Value)
    ensures FindSlot(slots, k).None? <==> !exists j | 0 <= j < |slots| :: SameIndex(Indices(slots)[j], k)
  {
    if FindSlot(slots, k).Some? {
      assert Indices(slots)[FindSlot(slots, k).value] == slots[FindSlot(slots, k).value].index;
    }
  }

  /** One fragment keeps the keys distinct and adds its key at the end when it is new. */
  lemma StepOrder(slots: seq<Slot>, tc: Value)
    requires DistinctSlots(slots) && ToolCallStep(slots, tc).Success?
    ensures DistinctSlots(ToolCallStep(slots, tc).value)
    ensures Indices(ToolCallStep(slots, tc).value) == Indices(slots) + NewIndex(Indices(slots), tc)
  {
    var r := ToolCallStep(slots, tc).value;
    if IndexOf(tc).Some? {
      var k := IndexOf(tc).value;
      FindSlotByIndices(slots, k);
      match FindSlot(slots, k)
      case Some(j) =>
        assert Indices(r) == Indices(slots);
      case None =>
        assert Indices(r) == Indices(slots) + [k];
    } else {
      assert r == slots;
    }
  }

  /**
   * The slots come out in order of first appearance of their key, not sorted:
   * the keys after a run of fragments are the keys before it followed by each
   * new key where it first occurs.
   */
  lemma {:induction false} FirstAppearanceOrder(slots: seq<Slot>, items: seq<Value>)
    requires DistinctSlots(slots) && ToolCalls(slots, items).Success?
    ensures DistinctSlots(ToolCalls(slots, items).value)
    ensures Indices(ToolCalls(slots, items).value) == Indices(slots) + FirstAppearances(Indices(slots), items)
    decreases |items|
  {
    if items != [] {
      var init := items[..|items| - 1];
      FirstAppearanceOrder(slots, init);
      var prev := ToolCalls(slots, init).value;
      StepOrder(prev, items[|items| - 1]);
      assert Indices(slots) + FirstAppearances(Indices(slots), init) + NewIndex(Indices(prev), items[|items| - 1]) ==
             Indices(slots) + FirstAppearances(Indices(slots), items);
    }
  }

  function Fragment(index: int): Value {
    Obj([("index", Num(index))])
  }

  lemma ToolCallsSnoc(slots: seq<Slot>, items: seq<Value>, tc: Value)
    ensures ToolCalls(slots, items + [tc]) ==
            if ToolCalls(slots, items).Failure? then ToolCalls(slots, items) else ToolCallStep(ToolCalls(slots, items).value, tc)
  {
    assert (items + [tc])[..|items|] == items;
  }

  lemma FragmentStep(slots: seq<Slot>, n: int)
    requires FindSlot(slots, Num(n)).None?
    ensures ToolCallStep(slots, Fragment(n)) == Success(slots + [EmptySlot(Num(n))])
  {
    var fields := Fragment(n).fields;
    assert Lookup(fields, "index") == Some(Num(n));
    assert Lookup(fields, "function") == None;
    assert fields[..0] == [];
    assert CopyExtras([], fields) == [];
    assert MergeInto(EmptySlot(Num(n)), fields) == Success(EmptySlot(Num(n)));
  }

  /** Index 1 arriving before index 0 leaves the slots in the order 1, 0. */
  lemma NotSortedByIndex()
    ensures ToolCalls([], [Fragment(1), Fragment(0)]).Success?
    ensures Indices(ToolCalls([], [Fragment(1), Fragment(0)]).value) == [Num(1), Num(0)]
  {
    var items := [Fragment(1), Fragment(0)];
    FragmentStep([], 1);
    ToolCallsSnoc([], [], Fragment(1));
    assert [] + [EmptySlot(Num(1))] == [EmptySlot(Num(1))];
    assert [] + [Fragment(1)] == [Fragment(1)];
    FragmentStep([EmptySlot(Num(1))], 0);
    assert ToolCalls([], [Fragment(1)]) == Success([EmptySlot(Num(1))]);
    ToolCallsSnoc([], [Fragment(1)], Fragment(0));
    assert [Fragment(1)] + [Fragment(0)] == items;
    assert [EmptySlot(Num(1))] + [EmptySlot(Num(0))] == [EmptySlot(Num(1)), EmptySlot(Num(0))];
    assert ToolCalls([], items) == Success([EmptySlot(Num(1)), EmptySlot(Num(0))]);
  }

  // ----- what each slot collects -----

  /** Whether a fragment is filed under key `k`. */
  predicate Matches(tc: Value, k: Value) {
    IndexOf(tc).Some? && SameIndex(IndexOf(tc).value, k)
  }

  /** The argument text a fragment contributes. */
  function ArgsPiece(tc: Value): string {
    if tc.Obj? && HasKey(tc.fields, "function") then
      var fn := Lookup(tc.fields, "function").value;
      if fn.Obj? && HasKey(fn.fields, "arguments") && Lookup(fn.fields, "arguments").value.Str? then
        Lookup(fn.fields, "arguments").value.s
      else ""
    else ""
  }

  /** The name a fragment sets: a truthy `function.name`. */
  function NamePiece(tc: Value): Option<Value> {
    if tc.Obj? && HasKey(tc.fields, "function") then
      var fn := Lookup(tc.fields, "function").value;
      if fn.Obj? && HasKey(fn.fields, "name") && Truthy(Lookup(fn.fields, "name").value) then
        Some(Lookup(fn.fields, "name").value)
      else None
    else None
  }

  /** The value of the last entry with key `k` (a dict's own value for that key). */
  function LastValue(fields: Dict, k: string): Option<Value>
    decreases |fields|
  {
    if fields == [] then None
    else if fields[|fields| - 1].0 == k then Some(fields[|fields| - 1].1)
    else LastValue(fields[..|fields| - 1], k)
  }

  /** The value a fragment writes under an extra key such as `id` or `type`. */
  function ExtraPiece(tc: Value, key: string): Option<Value> {
    if tc.Obj? && key != "function" && key != "index" then LastValue(tc.fields, key) else None
  }

  /** The concatenated argument pieces of the fragments filed under `k`, in arrival order. */
  function ArgsFor(items: seq<Value>, k: Value): string
    decreases |items|
  {
    if items == [] then ""
    else
      var last := items[|items| - 1];
      ArgsFor(items[..|items| - 1], k) + (if Matches(last, k) then ArgsPiece(last) else "")
  }

  /** The last name set by a fragment filed under `k`. */
  function LastName(items: seq<Value>, k: Value): Option<Value>
    decreases |items|
  {
    if items == [] then None
    else
      var last := items[|items| - 1];
      if Matches(last, k) && NamePiece(last).Some? then NamePiece(last) else LastName(items[..|items| - 1], k)
  }

  /** The last value written under `key` by a fragment filed under `k`. */
  function LastExtra(items: seq<Value>, k: Value, key: string): Option<Value>
    decreases |items|
  {
    if items == [] then None
    else
      var last := items[|items| - 1];
      if Matches(last, k) && ExtraPiece(last, key).Some? then ExtraPiece(last, key) else LastExtra(items[..|items| - 1], k, key)
  }

  lemma {:induction false} CopyExtrasLookup(e: Dict, fields: Dict, key: string)
    requires key != "function" && key != "index"
    ensures Lookup(CopyExtras(e, fields), key) == if LastValue(fields, key).Some? then LastValue(fields, key) else Lookup(e, key)
    decreases |fields|
  {
    if fields != [] {
      var last := fields[|fields| - 1];
      CopyExtrasLookup(e, fields[..|fields| - 1], key);
      if last.0 != "function" && last.0 != "index" {
        LookupSet(CopyExtras(e, fields[..|fields| - 1]), last.0, last.1, key);
      }
    }
  }

  /** Merging one fragment into a slot appends its arguments, keeps the last truthy name and overwrites the extras it names. */
  lemma MergeIntoRule(s: Slot, tc: Value, key: string)
    requires tc.Obj? && MergeInto(s, tc.fields).Success?
    requires key != "function" && key != "index"
    ensures MergeInto(s, tc.fields).value.index == s.index
    ensures MergeInto(s, tc.fields).value.args == s.args + ArgsPiece(tc)
    ensures MergeInto(s, tc.fields).value.name == NamePiece(tc).GetOr(s.name)
    ensures Lookup(MergeInto(s, tc.fields).value.extras, key) ==
            if ExtraPiece(tc, key).Some? then ExtraPiece(tc, key) else Lookup(s.extras, key)
  {
    CopyExtrasLookup(s.extras, tc.fields, key);
  }

  function SlotValueOr(o: Option<Slot>, k: Value): Slot {
    o.GetOr(EmptySlot(k))
  }

  lemma FindSlotSame(slots: seq<Slot>, slots': seq<Slot>, k: Value)
    requires Indices(slots) == Indices(slots')
    ensures FindSlot(slots, k) == FindSlot(slots', k)
    decreases |slots|
  {
    assert |slots| == |Indices(slots)| == |slots'|;
    forall j | 0 <= j < |slots| ensures slots[j].index == slots'[j].index {
      assert Indices(slots)[j] == slots[j].index && Indices(slots')[j] == slots'[j].index;
    }
    if slots != [] {
      assert Indices(slots[1..]) == Indices(slots'[1..]);
      FindSlotSame(slots[1..], slots'[1..], k);
    }
  }

  lemma {:induction false} FindSlotAppend(slots: seq<Slot>, s: Slot, k: Value)
    requires FindSlot(slots, k).None?
    ensures FindSlot(slots + [s], k) == if SameIndex(s.index, k) then Some(|slots|) else None
    decreases |slots|
  {
    if slots != [] {
      assert (slots + [s])[1..] == slots[1..] + [s];
      FindSlotAppend(slots[1..], s, k);
    }
  }

  /**
   * One fragment and one key: a fragment filed under `k` is merged into the slot
   * for `k` (a fresh one when there is none yet), and every other key's slot is
   * left as it is.
   */
  lemma StepPerIndex(slots: seq<Slot>, tc: Value, k: Value)
    requires DistinctSlots(slots) && ToolCallStep(slots, tc).Success?
    requires Hashable(k) && k != Null
    ensures var r := ToolCallStep(slots, tc).value;
            if Matches(tc, k) then
              SlotFor(r, k).Some? &&
              Success(SlotFor(r, k).value) == MergeInto(SlotValueOr(SlotFor(slots, k), IndexOf(tc).value), tc.fields)
            else SlotFor(r, k) == SlotFor(slots, k)
  {
    if IndexOf(tc).Some? {
      if FindSlot(slots, IndexOf(tc).value).Some? {
        StepIntoExisting(slots, tc, k);
      } else {
        StepIntoNew(slots, tc, k);
      }
    }
  }

  lemma StepIntoExisting(slots: seq<Slot>, tc: Value, k: Value)
    requires DistinctSlots(slots) && ToolCallStep(slots, tc).Success?
    requires IndexOf(tc).Some? && FindSlot(slots, IndexOf(tc).value).Some?
    ensures var r := ToolCallStep(slots, tc).value;
            if Matches(tc, k) then
              SlotFor(r, k).Some? && SlotFor(slots, k).Some? &&
              Success(SlotFor(r, k).value) == MergeInto(SlotFor(slots, k).value, tc.fields)
            else SlotFor(r, k) == SlotFor(slots, k)
  {
    var r := ToolCallStep(slots, tc).value;
    var j := FindSlot(slots, IndexOf(tc).value).value;
    assert r == slots[j := MergeInto(slots[j], tc.fields).value];
    assert Indices(r) == Indices(slots);
    FindSlotSame(r, slots, k);
    var idx, y := IndexOf(tc).value, slots[j].index;
    SameIndexEquiv(y, idx, k);
    SameIndexEquiv(idx, y, k);
    if Matches(tc, k) {
      SameIndexEquiv(y, k, y);
      assert FindSlot(slots, k).Some?;
      var i := FindSlot(slots, k).value;
      SameIndexEquiv(slots[i].index, k, y);
      SameIndexEquiv(slots[i].index, y, y);
      assert i == j;
    } else if FindSlot(slots, k).Some? {
      assert FindSlot(slots, k).value != j;
    }
  }

  /** Python key equality is symmetric and transitive. */
  lemma SameIndexEquiv(a: Value, b: Value, c: Value)
    ensures SameIndex(a, b) ==> SameIndex(b, a)
    ensures SameIndex(a, b) && SameIndex(b, c) ==> SameIndex(a, c)
  {
  }

  lemma StepIntoNew(slots: seq<Slot>, tc: Value, k: Value)
    requires ToolCallStep(slots, tc).Success?
    requires IndexOf(tc).Some? && FindSlot(slots, IndexOf(tc).value).None?
    ensures var r := ToolCallStep(slots, tc).value;
            if Matches(tc, k) then
              SlotFor(r, k).Some? && SlotFor(slots, k).None? &&
              Success(SlotFor(r, k).value) == MergeInto(EmptySlot(IndexOf(tc).value), tc.fields)
            else SlotFor(r, k) == SlotFor(slots, k)
  {
    var r := ToolCallStep(slots, tc).value;
    var s := MergeInto(EmptySlot(IndexOf(tc).value), tc.fields).value;
    assert r == slots + [s];
    assert s.index == IndexOf(tc).value;
    if FindSlot(slots, k).None? {
      FindSlotAppend(slots, s, k);
    } else {
      var i := FindSlot(slots, k).value;
      assert r[i] == slots[i];
      FindSlotPrefix(slots, s, k);
    }
  }

  lemma {:induction false} FindSlotPrefix(slots: seq<Slot>, s: Slot, k: Value)
    requires FindSlot(slots, k).Some?
    ensures FindSlot(slots + [s], k) == FindSlot(slots, k)
    decreases |slots|
  {
    if !SameIndex(slots[0].index, k) {
      assert (slots + [s])[1..] == slots[1..] + [s];
      FindSlotPrefix(slots[1..], s, k);
    }
  }

  predicate KeyWithSlot(k: Value) {
    Hashable(k) && k != Null
  }

  // ----- one key at a time -----

  /** What one fragment does to the slot for `k` alone: a fragment filed under `k` is merged into it, creating it under the fragment's own index when it is new. */
  function ReplayStep(o: Option<Slot>, tc: Value, k: Value): Result<Option<Slot>, Fault> {
    if !Matches(tc, k) then Success(o)
    else
      var s :- MergeInto(SlotValueOr(o, IndexOf(tc).value), tc.fields);
      Success(Some(s))
  }

  /** The slot for `k` replayed from the fragments filed under `k` only. */
  function Replay(o: Option<Slot>, items: seq<Value>, k: Value): Result<Option<Slot>, Fault>
    decreases |items|
  {
    if items == [] then Success(o)
    else
      var prev :- Replay(o, items[..|items| - 1], k);
      ReplayStep(prev, items[|items| - 1], k)
  }

  /**
   * The merge treats every key on its own: after a run of fragments, the slot
   * for `k` is what replaying just the fragments filed under `k` on the slot it
   * had before gives.
   */
  lemma {:induction false} SlotHistory(slots: seq<Slot>, items: seq<Value>, k: Value)
    requires DistinctSlots(slots) && ToolCalls(slots, items).Success? && KeyWithSlot(k)
    ensures Replay(SlotFor(slots, k), items, k) == Success(SlotFor(ToolCalls(slots, items).value, k))
    decreases |items|
  {
    if items != [] {
      var init := items[..|items| - 1];
      var tc := items[|items| - 1];
      var prev := ToolCalls(slots, init).value;
      FirstAppearanceOrder(slots, init);
      SlotHistory(slots, init, k);
      StepPerIndex(prev, tc, k);
      assert ToolCalls(slots, items) == ToolCallStep(prev, tc);
      assert Replay(SlotFor(slots, k), items, k) == ReplayStep(SlotFor(prev, k), tc, k);
    }
  }

  /** Replayed on one slot, the argument pieces filed under `k` are appended in arrival order. */
  lemma {:induction false} ReplayArgs(o: Option<Slot>, items: seq<Value>, k: Value)
    requires Replay(o, items, k).Success? && Replay(o, items, k).value.Some?
    ensures Replay(o, items, k).value.value.args == (if o.Some? then o.value.args else "") + ArgsFor(items, k)
    decreases |items|
  {
    if items != [] {
      var init := items[..|items| - 1];
      var tc := items[|items| - 1];
      var prev := Replay(o, init, k).value;
      var base := if o.Some? then o.value.args else "";
      if Matches(tc, k) {
        var s0 := SlotValueOr(prev, IndexOf(tc).value);
        assert Replay(o, items, k).value.value.args == s0.args + ArgsPiece(tc) by {
          MergeIntoRule(s0, tc, "id");
        }
        assert s0.args == base + ArgsFor(init, k) by {
          if prev.Some? {
            ReplayArgs(o, init, k);
          } else {
            ReplayNone(o, init, k, "id");
          }
        }
        assert (base + ArgsFor(init, k)) + ArgsPiece(tc) == base + (ArgsFor(init, k) + ArgsPiece(tc));
      } else {
        ReplayArgs(o, init, k);
        assert ArgsFor(items, k) == ArgsFor(init, k) + "";
      }
    }
  }

  /** Replayed on one slot, the name is the last truthy one filed under `k`. */
  lemma {:induction false} ReplayName(o: Option<Slot>, items: seq<Value>, k: Value)
    requires Replay(o, items, k).Success? && Replay(o, items, k).value.Some?
    ensures Replay(o, items, k).value.value.name == LastName(items, k).GetOr(if o.Some? then o.value.name else Str(""))
    decreases |items|
  {
    if items != [] {
      var init := items[..|items| - 1];
      var tc := items[|items| - 1];
      var prev := Replay(o, init, k).value;
      if Matches(tc, k) {
        MergeIntoRule(SlotValueOr(prev, IndexOf(tc).value), tc, "id");
        if prev.Some? {
          ReplayName(o, init, k);
        } else {
          ReplayNone(o, init, k, "id");
        }
      } else {
        ReplayName(o, init, k);
      }
    }
  }

  /** Replayed on one slot, each extra key holds the last value written to it under `k`. */
  lemma {:induction false} ReplayExtra(o: Option<Slot>, items: seq<Value>, k: Value, key: string)
    requires Replay(o, items, k).Success? && Replay(o, items, k).value.Some?
    requires key != "function" && key != "index"
    ensures var before := if o.Some? then Lookup(o.value.extras, key) else None;
            Lookup(Replay(o, items, k).value.value.extras, key) ==
              if LastExtra(items, k, key).Some? then LastExtra(items, k, key) else before
    decreases |items|
  {
    if items != [] {
      var init := items[..|items| - 1];
      var tc := items[|items| - 1];
      var prev := Replay(o, init, k).value;
      if Matches(tc, k) {
        MergeIntoRule(SlotValueOr(prev, IndexOf(tc).value), tc, key);
        if prev.Some? {
          ReplayExtra(o, init, k, key);
        } else {
          ReplayNone(o, init, k, key);
        }
      } else {
        ReplayExtra(o, init, k, key);
      }
    }
  }

  /** A replay that ends without a slot started without one and saw no fragment filed under `k`. */
  lemma {:induction false} ReplayNone(o: Option<Slot>, items: seq<Value>, k: Value, key: string)
    requires Replay(o, items, k) == Success(None)
    ensures o.None?
    ensures forall i | 0 <= i < |items| :: !Matches(items[i], k)
    ensures ArgsFor(items, k) == "" && LastName(items, k).None? && LastExtra(items, k, key).None?
    decreases |items|
  {
    if items != [] {
      var init := items[..|items| - 1];
      ReplayNone(o, init, k, key);
      forall i | 0 <= i < |items| ensures !Matches(items[i], k) {
        if i < |init| {
          assert items[i] == init[i];
        }
      }
    }
  }

  /** After a run of fragments, the slot for `k` holds the argument pieces filed under `k`, appended in arrival order. */
  lemma PerIndexArgs(slots: seq<Slot>, items: seq<Value>, k: Value)
    requires DistinctSlots(slots) && ToolCalls(slots, items).Success? && KeyWithSlot(k)
    requires SlotFor(ToolCalls(slots, items).value, k).Some?
    ensures var before := SlotFor(slots, k);
            var after := SlotFor(ToolCalls(slots, items).value, k).value;
            after.args == (if before.Some? then before.value.args else "") + ArgsFor(items, k)
  {
    SlotHistory(slots, items, k);
    ReplayArgs(SlotFor(slots, k), items, k);
  }

  /** After a run of fragments, the slot for `k` holds the last truthy name filed under `k`. */
  lemma PerIndexName(slots: seq<Slot>, items: seq<Value>, k: Value)
    requires DistinctSlots(slots) && ToolCalls(slots, items).Success? && KeyWithSlot(k)
    requires SlotFor(ToolCalls(slots, items).value, k).Some?
    ensures var before := SlotFor(slots, k);
            var after := SlotFor(ToolCalls(slots, items).value, k).value;
            after.name == LastName(items, k).GetOr(if before.Some? then before.value.name else Str(""))
  {
    SlotHistory(slots, items, k);
    ReplayName(SlotFor(slots, k), items, k);
  }

  /** After a run of fragments, each extra key of the slot for `k` (such as `id` or `type`) holds the last value written to it. */
  lemma PerIndexExtra(slots: seq<Slot>, items: seq<Value>, k: Value, key: string)
    requires DistinctSlots(slots) && ToolCalls(slots, items).Success? && KeyWithSlot(k)
    requires key != "function" && key != "index"
    requires SlotFor(ToolCalls(slots, items).value, k).Some?
    ensures var before := SlotFor(slots, k);
            var after := SlotFor(ToolCalls(slots, items).value, k).value;
            Lookup(after.extras, key) ==
              if LastExtra(items, k, key).Some? then LastExtra(items, k, key)
              else if before.Some? then Lookup(before.value.extras, key) else None
  {
    SlotHistory(slots, items, k);
    ReplayExtra(SlotFor(slots, k), items, k, key);
  }

  /** A key that has no slot after a run of fragments had none before it and was never filed. */
  lemma SlotForNoneStays(slots: seq<Slot>, items: seq<Value>, k: Value)
    requires DistinctSlots(slots) && ToolCalls(slots, items).Success? && KeyWithSlot(k)
    requires SlotFor(ToolCalls(slots, items).value, k).None?
    ensures SlotFor(slots, k).None?
    ensures forall i | 0 <= i < |items| :: !Matches(items[i], k)
  {
    SlotHistory(slots, items, k);
    ReplayNone(SlotFor(slots, k), items, k, "id");
  }

  /** A fragment without an index, or with a null one, changes nothing. */
  lemma NullIndexIgnored(slots: seq<Slot>, items: seq<Value>, tc: Value)
    requires tc.Obj? && (!HasKey(tc.fields, "index") || Lookup(tc.fields, "index") == Some(Null))
    ensures ToolCalls(slots, items + [tc]) == ToolCalls(slots, items)
  {
    assert (items + [tc])[..|items|] == items;
  }

  /** The `tool_calls` list written into the message. */
  function SlotValues(slots: seq<Slot>): seq<Value> {
    seq(|slots|, i requires 0 <= i < |slots| => slots[i].ToValue())
  }
}
