/**
 * The call descriptors of one `Nina.ajax` batch, the instance numbering that
 * `beginRequest` gives repeated methods (lib/ajax.js:171-187), and the key
 * under which `readyStateChange` looks up each call's result (line 273).
 */
module AjaxBatch {
  import opened Base

  /** An opaque browser `File` object (an element of an input's `files`). */
  datatype FileHandle = FileHandle(id: nat)

  /**
   * A parameter value as the multiplexer sees it: `Missing` is `null` or
   * `undefined`, `FileInput` an object whose `type` is `'file'`, `Arr` a
   * JavaScript array, `Str` a string and `Atom` any other scalar or object.
   */
  datatype Value =
    | Atom(id: nat)
    | Str(s: string)
    | Missing
    | Arr(elems: seq<Value>)
    | FileInput(files: seq<FileHandle>)

  /**
   * A call descriptor. `parameters` is `None` when the caller left it out;
   * `files` is `None` until the first file is pushed onto it;
   * `hasProcedure` says whether a callback was supplied.
   */
  datatype Call = Call(
    methodName: string,
    parameters: Option<seq<Value>>,
    instanceNumber: nat,
    files: Option<seq<FileHandle>>,
    hasProcedure: bool)

  /** The first argument of `Nina.ajax`: one descriptor or an array of them. */
  datatype Args = Single(call: Call) | Batch(calls: seq<Call>)

  /** An element of `self.map`: the pair `[method, parameters]`. */
  datatype MapEntry = MapEntry(methodName: string, parameters: Option<seq<Value>>)

  /** Line 171-173: a single descriptor is treated as a one-element batch. */
  function Normalize(a: Args): (cs: seq<Call>)
    ensures a.Single? ==> cs == [a.call]
    ensures a.Batch? ==> cs == a.calls
  {
    match a
    case Single(c) => [c]
    case Batch(cs) => cs
  }

  /** The number of calls in `cs` whose method is `m`. */
  function Occ(cs: seq<Call>, m: string): nat
  {
    if cs == [] then 0
    else Occ(cs[..|cs| - 1], m) + (if cs[|cs| - 1].methodName == m then 1 else 0)
  }

  function MethodsOf(cs: seq<Call>): set<string>
  {
    set x | 0 <= x < |cs| :: cs[x].methodName
  }

  /** The batch after the numbering loop: each call carries the number of earlier calls with its method. */
  function Numbered(cs: seq<Call>): seq<Call>
  {
    seq(|cs|, x requires 0 <= x < |cs| => cs[x].(instanceNumber := Occ(cs[..x], cs[x].methodName)))
  }

  /** `self.methodInstances` after the numbering loop. */
  function InstanceCounts(cs: seq<Call>): map<string, int>
  {
    map m | m in MethodsOf(cs) :: Occ(cs, m) - 1
  }

  /** `self.map` as built by the numbering loop. */
  function Entries(cs: seq<Call>): seq<MapEntry>
  {
    seq(|cs|, x requires 0 <= x < |cs| => MapEntry(cs[x].methodName, cs[x].parameters))
  }

  lemma OccSnoc(cs: seq<Call>, x: nat, m: string)
    requires x < |cs|
    ensures Occ(cs[..x + 1], m) == Occ(cs[..x], m) + (if cs[x].methodName == m then 1 else 0)
  {
    assert cs[..x + 1][..x] == cs[..x];
  }

  /**
   * The loop at lib/ajax.js:174-187. A method seen for the first time gets
   * counter 0, a repeated one has its counter incremented; each call gets
   * the counter's new value as its instance number, and `[method,
   * parameters]` is pushed onto the map.
   */
  method NumberCalls(cs: seq<Call>) returns (numbered: seq<Call>, instances: map<string, int>, entries: seq<MapEntry>)
    ensures numbered == Numbered(cs)
    ensures instances == InstanceCounts(cs)
    ensures entries == Entries(cs)
  {
    numbered, instances, entries := cs, map[], [];
    var x := 0;
    assert cs[..0] == [];
    while x < |cs|
      invariant x <= |cs| && CallsCounted(cs, x, numbered, entries) && InstancesCounted(cs, x, instances)
    {
      var m := numbered[x].methodName;
      var instances' := if m !in instances then instances[m := 0] else instances[m := instances[m] + 1];
      InstancesCountedNext(cs, x, instances);
      CallsCountedNext(cs, x, numbered, entries, instances'[m]);
      instances := instances';
      entries := entries + [MapEntry(m, numbered[x].parameters)];
      numbered := numbered[x := numbered[x].(instanceNumber := instances[m])];
      x := x + 1;
    }
    assert cs[..|cs|] == cs;
    NumberingMatchesSpec(cs, numbered, instances, entries);
  }

  /** The calls and map entries after the numbering loop has seen `x` calls. */
  ghost predicate CallsCounted(cs: seq<Call>, x: nat, numbered: seq<Call>, entries: seq<MapEntry>)
  {
    x <= |cs| && |numbered| == |cs| && |entries| == x &&
    (forall k :: 0 <= k < x ==> numbered[k] == cs[k].(instanceNumber := Occ(cs[..k], cs[k].methodName))) &&
    (forall k :: x <= k < |cs| ==> numbered[k] == cs[k]) &&
    (forall k :: 0 <= k < x ==> entries[k] == MapEntry(cs[k].methodName, cs[k].parameters))
  }

  /** The counter dictionary after the numbering loop has seen `x` calls. */
  ghost predicate InstancesCounted(cs: seq<Call>, x: nat, instances: map<string, int>)
    requires x <= |cs|
  {
    (forall m :: m in instances <==> Occ(cs[..x], m) > 0) &&
    (forall m :: m in instances ==> instances[m] == Occ(cs[..x], m) - 1)
  }

  lemma InstancesCountedNext(cs: seq<Call>, x: nat, instances: map<string, int>)
    requires x < |cs| && InstancesCounted(cs, x, instances)
    ensures var m := cs[x].methodName;
            var instances' := if m !in instances then instances[m := 0] else instances[m := instances[m] + 1];
            InstancesCounted(cs, x + 1, instances') && instances'[m] == Occ(cs[..x], m)
  {
    forall m' ensures Occ(cs[..x + 1], m') == Occ(cs[..x], m') + (if cs[x].methodName == m' then 1 else 0) {
      OccSnoc(cs, x, m');
    }
  }

  lemma CallsCountedNext(cs: seq<Call>, x: nat, numbered: seq<Call>, entries: seq<MapEntry>, n: nat)
    requires x < |cs| && CallsCounted(cs, x, numbered, entries) && n == Occ(cs[..x], cs[x].methodName)
    ensures CallsCounted(cs, x + 1, numbered[x := numbered[x].(instanceNumber := n)],
                         entries + [MapEntry(numbered[x].methodName, numbered[x].parameters)])
  {
  }

  lemma NumberingMatchesSpec(cs: seq<Call>, numbered: seq<Call>, instances: map<string, int>, entries: seq<MapEntry>)
    requires |numbered| == |cs| && |entries| == |cs|
    requires forall x :: 0 <= x < |cs| ==>
               numbered[x] == cs[x].(instanceNumber := Occ(cs[..x], cs[x].methodName))
    requires forall m :: m in instances <==> Occ(cs, m) > 0
    requires forall m :: m in instances ==> instances[m] == Occ(cs, m) - 1
    requires forall x :: 0 <= x < |cs| ==> entries[x] == MapEntry(cs[x].methodName, cs[x].parameters)
    ensures numbered == Numbered(cs) && entries == Entries(cs)
    ensures instances == InstanceCounts(cs)
  {
    forall m ensures m in MethodsOf(cs) <==> Occ(cs, m) > 0 {
      OccPositiveIffPresent(cs, m);
    }
    assert instances.Keys == InstanceCounts(cs).Keys;
  }

  lemma {:induction false} OccPositiveIffPresent(cs: seq<Call>, m: string)
    ensures Occ(cs, m) > 0 <==> m in MethodsOf(cs)
  {
    if cs != [] {
      var n := |cs| - 1;
      OccPositiveIffPresent(cs[..n], m);
      assert MethodsOf(cs) == MethodsOf(cs[..n]) + {cs[n].methodName} by {
        forall x | 0 <= x < n ensures cs[..n][x] == cs[x] { }
      }
    }
  }

  /**
   * Line 273: the result key of a call. The instance suffix is added when the
   * FINAL counter of the call's method is positive, not when the call's own
   * instance number is; for a repeated method even its first call, number 0,
   * is looked up as `method_0`.
   */
  function ResultKey(c: Call, instances: map<string, int>): (k: string)
    ensures |k| >= |c.methodName| && k[..|c.methodName|] == c.methodName
  {
    c.methodName + (if c.methodName in instances && instances[c.methodName] > 0
                then "_" + NatToString(c.instanceNumber) else "")
  }

  /** The instance number of a call is smaller than the occurrence count of its method. */
  lemma {:induction false} OccPrefixBelow(cs: seq<Call>, x: nat, y: nat)
    requires x < y <= |cs|
    ensures Occ(cs[..x], cs[x].methodName) < Occ(cs[..y], cs[x].methodName)
  {
    var m := cs[x].methodName;
    if y == x + 1 {
      OccSnoc(cs, x, m);
    } else {
      OccPrefixBelow(cs, x, y - 1);
      OccSnoc(cs, y - 1, m);
    }
  }

  /**
   * Calls with the same method get strictly increasing instance numbers in
   * batch order, all below the number of occurrences of the method.
   */
  lemma InstanceNumbersIncrease(cs: seq<Call>, x: nat, y: nat)
    requires x < y < |cs| && cs[x].methodName == cs[y].methodName
    ensures Numbered(cs)[x].instanceNumber < Numbered(cs)[y].instanceNumber
    ensures Numbered(cs)[y].instanceNumber < Occ(cs, cs[y].methodName)
  {
    OccPrefixBelow(cs, x, y);
    OccPrefixBelow(cs, y, |cs|);
    assert cs[..|cs|] == cs;
  }

  /**
   * Every number below the occurrence count of `m` is the instance number of
   * some call with method `m`: the k calls of a method are numbered 0..k-1.
   */
  lemma {:induction false} InstanceNumbersCover(cs: seq<Call>, m: string, j: nat)
    requires j < Occ(cs, m)
    ensures exists x :: 0 <= x < |cs| && cs[x].methodName == m && Occ(cs[..x], m) == j
  {
    var n := |cs| - 1;
    if j < Occ(cs[..n], m) {
      InstanceNumbersCover(cs[..n], m, j);
      var x :| 0 <= x < n && cs[..n][x].methodName == m && Occ(cs[..n][..x], m) == j;
      assert cs[..n][..x] == cs[..x];
    } else {
      assert cs[..n + 1] == cs;
      OccSnoc(cs, n, m);
      assert cs[n].methodName == m && Occ(cs[..n], m) == j;
    }
  }

  /**
   * The key of every call after numbering: bare `method` when the method
   * occurs once in the batch, `method_<number of earlier calls with that
   * method>` when it occurs more than once.
   */
  lemma KeyAfterNumbering(cs: seq<Call>, x: nat)
    requires x < |cs|
    ensures var m := cs[x].methodName;
            ResultKey(Numbered(cs)[x], InstanceCounts(cs))
            == if Occ(cs, m) > 1 then m + "_" + NatToString(Occ(cs[..x], m)) else m
  {
    assert cs[x].methodName in MethodsOf(cs);
  }

  /** When every method of the batch is distinct, every key is the bare method name. */
  lemma {:induction false} DistinctMethodsBareKeys(cs: seq<Call>)
    requires forall i, j :: 0 <= i < j < |cs| ==> cs[i].methodName != cs[j].methodName
    ensures forall x :: 0 <= x < |cs| ==> ResultKey(Numbered(cs)[x], InstanceCounts(cs)) == cs[x].methodName
  {
    forall x | 0 <= x < |cs|
      ensures ResultKey(Numbered(cs)[x], InstanceCounts(cs)) == cs[x].methodName
    {
      KeyAfterNumbering(cs, x);
      OccOfUnique(cs, x);
    }
  }

  lemma {:induction false} OccOfUnique(cs: seq<Call>, x: nat)
    requires x < |cs|
    requires forall i, j :: 0 <= i < j < |cs| ==> cs[i].methodName != cs[j].methodName
    ensures Occ(cs, cs[x].methodName) == 1
  {
    var n := |cs| - 1;
    var m := cs[x].methodName;
    if x == n {
      forall i | 0 <= i < n ensures cs[..n][i].methodName != m {
        assert cs[..n][i] == cs[i];
      }
      OccPositiveIffPresent(cs[..n], m);
    } else {
      OccOfUnique(cs[..n], x);
      assert cs[..n][x] == cs[x];
      assert cs[n].methodName != m;
    }
  }

  /**
   * Two calls of the same method in one batch are looked up under different
   * keys.
   */
  lemma SameMethodDistinctKeys(cs: seq<Call>, x: nat, y: nat)
    requires x < y < |cs| && cs[x].methodName == cs[y].methodName
    ensures ResultKey(Numbered(cs)[x], InstanceCounts(cs)) != ResultKey(Numbered(cs)[y], InstanceCounts(cs))
  {
    var m := cs[x].methodName;
    InstanceNumbersIncrease(cs, x, y);
    KeyAfterNumbering(cs, x);
    KeyAfterNumbering(cs, y);
    var a, b := Occ(cs[..x], m), Occ(cs[..y], m);
    if m + "_" + NatToString(a) == m + "_" + NatToString(b) {
      assert NatToString(a) == (m + "_" + NatToString(a))[|m| + 1..];
      assert NatToString(b) == (m + "_" + NatToString(b))[|m| + 1..];
      NatToStringInjective(a, b);
    }
  }

  /**
   * Keys of different methods can collide: with methods `a`, `a` and `a_1`
   * the second and third calls are both looked up as `a_1`.
   */
  lemma KeysOfDifferentMethodsCanCollide()
    ensures var c := Call("a", None, 0, None, true);
            var cs := [c, c, c.(methodName := "a_1")];
            ResultKey(Numbered(cs)[1], InstanceCounts(cs)) == "a_1"
            && ResultKey(Numbered(cs)[2], InstanceCounts(cs)) == "a_1"
  {
    var c := Call("a", None, 0, None, true);
    var cs := [c, c, c.(methodName := "a_1")];
    KeyAfterNumbering(cs, 1);
    KeyAfterNumbering(cs, 2);
    assert cs[..0] == [] && cs[..3] == cs;
    OccSnoc(cs, 0, "a"); OccSnoc(cs, 1, "a"); OccSnoc(cs, 2, "a");
    OccSnoc(cs, 0, "a_1"); OccSnoc(cs, 1, "a_1"); OccSnoc(cs, 2, "a_1");
    assert NatToString(1) == "1";
  }
}
