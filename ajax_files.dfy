/**
 * `parseFiles`, `pushFile` and `writeFileId` of lib/ajax.js (lines 113-156
 * and 250-259): every parameter that holds file inputs is replaced by the
 * concatenation of synthetic file ids, each file handle is pushed onto its
 * call's `files` list, and the id is written onto the handle's `fileId`
 * property (here the map `fileIds`).
 */
module AjaxFiles {
  import opened Base
  import opened AjaxBatch

  /** The `fileId` properties of the browser's File objects. */
  type FileIds = map<FileHandle, string>

  /** Lines 257-259. */
  function WriteFileId(methodName: string, instance: nat, z: nat, y: nat): (id: string)
    ensures |id| > 7 + |methodName| && id[..7] == "file:::" && id[7..7 + |methodName|] == methodName
  {
    "file:::" + methodName + "_" + (NatToString(instance) + ("_files_" + (NatToString(z) + ("_" + NatToString(y)))))
  }

  /**
   * For a fixed method, the id determines the instance number and the two
   * indices: `writeFileId` itself never merges two different positions.
   */
  lemma FileIdInjective(m: string, i1: nat, z1: nat, y1: nat, i2: nat, z2: nat, y2: nat)
    requires WriteFileId(m, i1, z1, y1) == WriteFileId(m, i2, z2, y2)
    ensures i1 == i2 && z1 == z2 && y1 == y2
  {
    var p := "file:::" + m + "_";
    var u1, u2 := "_" + NatToString(y1), "_" + NatToString(y2);
    var r1, r2 := "_files_" + (NatToString(z1) + u1), "_files_" + (NatToString(z2) + u2);
    var t1, t2 := NatToString(i1) + r1, NatToString(i2) + r2;
    assert p + t1 == p + t2;
    assert t1 == (p + t1)[|p|..] && t2 == (p + t2)[|p|..];
    DigitsSplitUnique(NatToString(i1), r1, NatToString(i2), r2);
    NatToStringInjective(i1, i2);
    assert NatToString(z1) + u1 == r1[7..];
    assert NatToString(z2) + u2 == r2[7..];
    DigitsSplitUnique(NatToString(z1), u1, NatToString(z2), u2);
    NatToStringInjective(z1, z2);
    assert NatToString(y1) == u1[1..] && NatToString(y2) == u2[1..];
    NatToStringInjective(y1, y2);
  }

  /**
   * One file handle found by the scan: `z` is the element index inside an
   * array parameter (0 for a bare file parameter), `y` the index within its
   * input's `files`.
   */
  datatype Slot = Slot(handle: FileHandle, z: nat, y: nat)

  function FileSlots(fs: seq<FileHandle>, z: nat): seq<Slot>
  {
    seq(|fs|, y requires 0 <= y < |fs| => Slot(fs[y], z, y))
  }

  function ElemSlots(v: Value, z: nat): seq<Slot>
  {
    if v.FileInput? then FileSlots(v.files, z) else []
  }

  function ArrSlots(es: seq<Value>): seq<Slot>
  {
    if es == [] then [] else ArrSlots(es[..|es| - 1]) + ElemSlots(es[|es| - 1], |es| - 1)
  }

  /** The handles `parseFiles` finds in one parameter, in element and file order. */
  function Slots(p: Value): seq<Slot>
  {
    match p
    case Arr(es) => ArrSlots(es)
    case FileInput(fs) => FileSlots(fs, 0)
    case _ => []
  }

  function Handles(ss: seq<Slot>): seq<FileHandle>
  {
    seq(|ss|, k requires 0 <= k < |ss| => ss[k].handle)
  }

  function Ids(ss: seq<Slot>, m: string, i: nat): seq<string>
  {
    seq(|ss|, k requires 0 <= k < |ss| => WriteFileId(m, i, ss[k].z, ss[k].y))
  }

  /** The `fileId` writes of the scan, applied in order. */
  function WriteIds(ids: FileIds, ss: seq<Slot>, m: string, i: nat): FileIds
  {
    if ss == [] then ids
    else var k := |ss| - 1;
         WriteIds(ids, ss[..k], m, i)[ss[k].handle := WriteFileId(m, i, ss[k].z, ss[k].y)]
  }

  /**
   * Reading `f.type` of a `null` element (line 130) or `p.type` of a `null`
   * parameter (line 142) throws a TypeError.
   */
  predicate Throws(p: Value)
  {
    p.Missing? || (p.Arr? && exists z :: 0 <= z < |p.elems| && p.elems[z].Missing?)
  }

  /**
   * The parameter after the scan (lines 138-140 and 149-151): a parameter
   * without file handles is kept; any other holds no file input afterwards.
   */
  function Subst(p: Value, m: string, i: nat): (r: Value)
    ensures Slots(p) == [] ==> r == p
    ensures Slots(r) == [] && !Throws(r) <== !Throws(p)
  {
    if |Slots(p)| > 0 then Str(Join(Ids(Slots(p), m, i))) else p
  }

  /** `pushFile` (lines 250-256): the list is created by the first push. */
  function PushFile(files: Option<seq<FileHandle>>, h: FileHandle): (r: Option<seq<FileHandle>>)
    ensures r.Some? && |r.value| == |files.GetOr([])| + 1 && r.value[|r.value| - 1] == h
    ensures files.Some? ==> r.value[..|files.value|] == files.value
  {
    if files.Some? then Some(files.value + [h]) else Some([h])
  }

  /** Several pushes in a row. */
  function PushAll(files: Option<seq<FileHandle>>, hs: seq<FileHandle>): Option<seq<FileHandle>>
  {
    if hs == [] then files else Some(files.GetOr([]) + hs)
  }

  /** The handles of a whole parameter list, parameter by parameter. */
  function CallSlots(ps: seq<Value>): seq<Slot>
  {
    if ps == [] then [] else CallSlots(ps[..|ps| - 1]) + Slots(ps[|ps| - 1])
  }

  /**
   * Line 124 reads `parameters.length`, which throws when the caller left
   * `parameters` out; a thrown parameter ends the scan as well.
   */
  predicate CallThrows(c: Call)
  {
    c.parameters.None? || exists t :: 0 <= t < |c.parameters.value| && Throws(c.parameters.value[t])
  }

  function SubstAll(ps: seq<Value>, m: string, i: nat): seq<Value>
  {
    seq(|ps|, t requires 0 <= t < |ps| => Subst(ps[t], m, i))
  }

  /** A call after the scan: parameters substituted, handles pushed. */
  function ParsedCall(c: Call): Call
    requires c.parameters.Some?
  {
    var ps := c.parameters.value;
    c.(parameters := Some(SubstAll(ps, c.methodName, c.instanceNumber)),
       files := PushAll(c.files, Handles(CallSlots(ps))))
  }

  /** The `fileId` writes of one call's scan. */
  function CallWrites(c: Call, ids: FileIds): FileIds
    requires c.parameters.Some?
  {
    WriteIds(ids, CallSlots(c.parameters.value), c.methodName, c.instanceNumber)
  }

  predicate BatchParses(cs: seq<Call>)
  {
    forall x :: 0 <= x < |cs| ==> !CallThrows(cs[x])
  }

  /** The batch after `parseFiles`. */
  function ParsedCalls(cs: seq<Call>): seq<Call>
    requires BatchParses(cs)
  {
    seq(|cs|, x requires 0 <= x < |cs| => ParsedCall(cs[x]))
  }

  /** The `fileId` writes of `parseFiles` over a whole batch, call by call. */
  function BatchWrites(cs: seq<Call>, ids: FileIds): FileIds
    requires BatchParses(cs)
  {
    if cs == [] then ids
    else CallWrites(cs[|cs| - 1], BatchWrites(cs[..|cs| - 1], ids))
  }

  // ---------------------------------------------------------------------
  // Algebra of the scan's bookkeeping
  // ---------------------------------------------------------------------

  lemma HandlesAppend(a: seq<Slot>, b: seq<Slot>)
    ensures Handles(a + b) == Handles(a) + Handles(b)
  {
  }

  lemma IdsAppend(a: seq<Slot>, b: seq<Slot>, m: string, i: nat)
    ensures Ids(a + b, m, i) == Ids(a, m, i) + Ids(b, m, i)
  {
  }

  lemma {:induction false} WriteIdsAppend(ids: FileIds, a: seq<Slot>, b: seq<Slot>, m: string, i: nat)
    ensures WriteIds(ids, a + b, m, i) == WriteIds(WriteIds(ids, a, m, i), b, m, i)
  {
    if b == [] {
      assert a + b == a;
    } else {
      var k := |b| - 1;
      assert (a + b)[..|a + b| - 1] == a + b[..k];
      WriteIdsAppend(ids, a, b[..k], m, i);
    }
  }

  lemma PushAllAppend(files: Option<seq<FileHandle>>, a: seq<FileHandle>, b: seq<FileHandle>)
    ensures PushAll(PushAll(files, a), b) == PushAll(files, a + b)
  {
    if a == [] {
      assert a + b == b;
    } else if b == [] {
      assert a + b == a;
    } else {
      assert files.GetOr([]) + a + b == files.GetOr([]) + (a + b);
    }
  }

  // ---------------------------------------------------------------------
  // The scan, loop by loop
  // ---------------------------------------------------------------------

  /**
   * The innermost loop (lines 131-135, and 144-148 with z = 0): every
   * handle of one file input is pushed onto the call's list, gets its id,
   * and the id is pushed onto `fa`.
   */
  method ScanFiles(fs: seq<FileHandle>, m: string, i: nat, z: nat,
                   files0: Option<seq<FileHandle>>, ids0: FileIds, fa0: seq<string>)
    returns (files: Option<seq<FileHandle>>, ids: FileIds, fa: seq<string>)
    ensures files == PushAll(files0, fs)
    ensures ids == WriteIds(ids0, FileSlots(fs, z), m, i)
    ensures fa == fa0 + Ids(FileSlots(fs, z), m, i)
  {
    files, ids, fa := files0, ids0, fa0;
    var y := 0;
    assert fs[..0] == [] && FileSlots(fs, z)[..0] == [];
    while y < |fs|
      invariant y <= |fs| && FilesScanned(fs, m, i, z, files0, ids0, fa0, y, files, ids, fa)
    {
      FilesScannedNext(fs, m, i, z, files0, ids0, fa0, y, files, ids, fa);
      var id := WriteFileId(m, i, z, y);
      files := PushFile(files, fs[y]);
      ids := ids[fs[y] := id];
      fa := fa + [id];
      y := y + 1;
    }
    assert fs[..|fs|] == fs;
    assert FileSlots(fs, z)[..|fs|] == FileSlots(fs, z);
  }

  /** The bookkeeping of the file loop after its first `y` handles. */
  predicate FilesScanned(fs: seq<FileHandle>, m: string, i: nat, z: nat,
                         files0: Option<seq<FileHandle>>, ids0: FileIds, fa0: seq<string>,
                         y: nat, files: Option<seq<FileHandle>>, ids: FileIds, fa: seq<string>)
    requires y <= |fs|
  {
    files == PushAll(files0, fs[..y]) &&
    ids == WriteIds(ids0, FileSlots(fs, z)[..y], m, i) &&
    fa == fa0 + Ids(FileSlots(fs, z)[..y], m, i)
  }

  lemma FilesScannedNext(fs: seq<FileHandle>, m: string, i: nat, z: nat,
                         files0: Option<seq<FileHandle>>, ids0: FileIds, fa0: seq<string>,
                         y: nat, files: Option<seq<FileHandle>>, ids: FileIds, fa: seq<string>)
    requires y < |fs| && FilesScanned(fs, m, i, z, files0, ids0, fa0, y, files, ids, fa)
    ensures var id := WriteFileId(m, i, z, y);
            FilesScanned(fs, m, i, z, files0, ids0, fa0, y + 1, PushFile(files, fs[y]), ids[fs[y] := id], fa + [id])
  {
    FilesPushedNext(fs, files0, y);
    var t := FileSlots(fs, z)[..y + 1];
    assert t[..y] == FileSlots(fs, z)[..y];
    assert t[y] == Slot(fs[y], z, y);
    WriteIdsSnoc(ids0, t, m, i);
    IdsSnoc(t, m, i);
  }

  lemma WriteIdsSnoc(ids: FileIds, ss: seq<Slot>, m: string, i: nat)
    requires ss != []
    ensures var n := |ss| - 1;
            WriteIds(ids, ss, m, i) == WriteIds(ids, ss[..n], m, i)[ss[n].handle := WriteFileId(m, i, ss[n].z, ss[n].y)]
  {
  }

  lemma FilesPushedNext(fs: seq<FileHandle>, files0: Option<seq<FileHandle>>, y: nat)
    requires y < |fs|
    ensures PushFile(PushAll(files0, fs[..y]), fs[y]) == PushAll(files0, fs[..y + 1])
  {
    assert fs[..y + 1] == fs[..y] + [fs[y]];
    PushAllAppend(files0, fs[..y], [fs[y]]);
    assert PushFile(PushAll(files0, fs[..y]), fs[y]) == PushAll(PushAll(files0, fs[..y]), [fs[y]]) by {
      assert [] + [fs[y]] == [fs[y]];
    }
  }

  lemma IdsSnoc(ss: seq<Slot>, m: string, i: nat)
    requires ss != []
    ensures var n := |ss| - 1;
            Ids(ss, m, i) == Ids(ss[..n], m, i) + [WriteFileId(m, i, ss[n].z, ss[n].y)]
  {
  }

  /**
   * The element loop of an array parameter (lines 127-137): every file
   * input among the elements is scanned with its element index `z`.
   */
  method ScanArray(es: seq<Value>, m: string, i: nat, files0: Option<seq<FileHandle>>, ids0: FileIds)
    returns (ok: bool, files: Option<seq<FileHandle>>, ids: FileIds, fa: seq<string>)
    ensures ok == forall k :: 0 <= k < |es| ==> !es[k].Missing?
    ensures ok ==> files == PushAll(files0, Handles(ArrSlots(es)))
    ensures ok ==> ids == WriteIds(ids0, ArrSlots(es), m, i)
    ensures ok ==> fa == Ids(ArrSlots(es), m, i)
  {
    ok, files, ids, fa := true, files0, ids0, [];
    var z := 0;
    assert es[..0] == [];
    while z < |es|
      invariant z <= |es| && ElemsScanned(es, m, i, files0, ids0, z, files, ids, fa)
    {
      var f := es[z];
      if f.Missing? {
        ok := false;
        return;
      }
      var files', ids', fa' := files, ids, fa;
      if f.FileInput? {
        files', ids', fa' := ScanFiles(f.files, m, i, z, files, ids, fa);
      }
      ElemsScannedNext(es, m, i, files0, ids0, z, files, ids, fa, files', ids', fa');
      files, ids, fa := files', ids', fa';
      z := z + 1;
    }
    assert es[..|es|] == es;
  }

  /** The bookkeeping of the element loop after its first `z` elements. */
  predicate ElemsScanned(es: seq<Value>, m: string, i: nat, files0: Option<seq<FileHandle>>, ids0: FileIds,
                         z: nat, files: Option<seq<FileHandle>>, ids: FileIds, fa: seq<string>)
    requires z <= |es|
  {
    (forall k :: 0 <= k < z ==> !es[k].Missing?) &&
    Collected(files0, ids0, ArrSlots(es[..z]), m, i, files, ids, fa)
  }

  /** The handles, `fileId`s and `fa` after the scan has met the slots `ss`. */
  predicate Collected(files0: Option<seq<FileHandle>>, ids0: FileIds, ss: seq<Slot>, m: string, i: nat,
                      files: Option<seq<FileHandle>>, ids: FileIds, fa: seq<string>)
  {
    files == PushAll(files0, Handles(ss)) &&
    ids == WriteIds(ids0, ss, m, i) &&
    fa == Ids(ss, m, i)
  }

  lemma ElemsScannedNext(es: seq<Value>, m: string, i: nat, files0: Option<seq<FileHandle>>, ids0: FileIds,
                         z: nat, files: Option<seq<FileHandle>>, ids: FileIds, fa: seq<string>,
                         files': Option<seq<FileHandle>>, ids': FileIds, fa': seq<string>)
    requires z < |es| && !es[z].Missing? && ElemsScanned(es, m, i, files0, ids0, z, files, ids, fa)
    requires es[z].FileInput? ==>
               files' == PushAll(files, es[z].files) &&
               ids' == WriteIds(ids, FileSlots(es[z].files, z), m, i) &&
               fa' == fa + Ids(FileSlots(es[z].files, z), m, i)
    requires !es[z].FileInput? ==> files' == files && ids' == ids && fa' == fa
    ensures ElemsScanned(es, m, i, files0, ids0, z + 1, files', ids', fa')
  {
    ArrSlotsStep(es, z);
    if es[z].FileInput? {
      assert Handles(FileSlots(es[z].files, z)) == es[z].files;
      CollectedNext(files0, ids0, ArrSlots(es[..z]), FileSlots(es[z].files, z), m, i, files, ids, fa, files', ids', fa');
    }
  }

  lemma CollectedNext(files0: Option<seq<FileHandle>>, ids0: FileIds, a: seq<Slot>, b: seq<Slot>, m: string, i: nat,
                      files: Option<seq<FileHandle>>, ids: FileIds, fa: seq<string>,
                      files': Option<seq<FileHandle>>, ids': FileIds, fa': seq<string>)
    requires Collected(files0, ids0, a, m, i, files, ids, fa)
    requires files' == PushAll(files, Handles(b)) && ids' == WriteIds(ids, b, m, i) && fa' == fa + Ids(b, m, i)
    ensures Collected(files0, ids0, a + b, m, i, files', ids', fa')
  {
    ScanStep(files0, ids0, a, b, m, i);
  }

  lemma ArrSlotsStep(es: seq<Value>, z: nat)
    requires z < |es|
    ensures ArrSlots(es[..z + 1]) == ArrSlots(es[..z]) + ElemSlots(es[z], z)
    ensures !es[z].FileInput? ==> ArrSlots(es[..z + 1]) == ArrSlots(es[..z])
  {
    assert es[..z + 1][..z] == es[..z];
  }

  /** Appending the slots of one more input to the bookkeeping of the earlier ones. */
  lemma ScanStep(files0: Option<seq<FileHandle>>, ids0: FileIds, a: seq<Slot>, b: seq<Slot>, m: string, i: nat)
    ensures PushAll(PushAll(files0, Handles(a)), Handles(b)) == PushAll(files0, Handles(a + b))
    ensures WriteIds(WriteIds(ids0, a, m, i), b, m, i) == WriteIds(ids0, a + b, m, i)
    ensures Ids(a, m, i) + Ids(b, m, i) == Ids(a + b, m, i)
  {
    HandlesAppend(a, b);
    PushAllAppend(files0, Handles(a), Handles(b));
    WriteIdsAppend(ids0, a, b, m, i);
    IdsAppend(a, b, m, i);
  }

  /**
   * One parameter (lines 125-153): an array is scanned element by element;
   * a bare file input with element index 0. The parameter is overwritten
   * only when some file was found.
   */
  method ScanParam(p: Value, m: string, i: nat, files0: Option<seq<FileHandle>>, ids0: FileIds)
    returns (ok: bool, q: Value, files: Option<seq<FileHandle>>, ids: FileIds)
    ensures ok == !Throws(p)
    ensures ok ==> q == Subst(p, m, i)
    ensures ok ==> files == PushAll(files0, Handles(Slots(p)))
    ensures ok ==> ids == WriteIds(ids0, Slots(p), m, i)
  {
    ok, q, files, ids := true, p, files0, ids0;
    var fa: seq<string> := [];
    if p.Arr? {
      ok, files, ids, fa := ScanArray(p.elems, m, i, files0, ids0);
    } else if p.Missing? {
      ok := false;
    } else if p.FileInput? {
      files, ids, fa := ScanFiles(p.files, m, i, 0, files, ids, fa);
      assert [] + Ids(FileSlots(p.files, 0), m, i) == Ids(FileSlots(p.files, 0), m, i);
      assert Handles(FileSlots(p.files, 0)) == p.files;
    }
    if ok && |fa| > 0 {
      q := Str(Join(fa));
    }
  }

  /** The state of the parameter loop of call `c` after `t` parameters. */
  predicate ParamsScanned(c: Call, ids0: FileIds, t: nat, ps: seq<Value>,
                          files: Option<seq<FileHandle>>, ids: FileIds)
    requires c.parameters.Some?
  {
    ParamsSubstituted(c, t, ps) && ParamsCollected(c, ids0, t, files, ids)
  }

  /** The first `t` parameters are substituted, the others untouched. */
  predicate ParamsSubstituted(c: Call, t: nat, ps: seq<Value>)
    requires c.parameters.Some?
  {
    var ps0, m, i := c.parameters.value, c.methodName, c.instanceNumber;
    && t <= |ps0| && |ps| == |ps0|
    && (forall k :: 0 <= k < t ==> !Throws(ps0[k]) && ps[k] == Subst(ps0[k], m, i))
    && (forall k :: t <= k < |ps0| ==> ps[k] == ps0[k])
  }

  /** The handles and ids of the first `t` parameters are recorded. */
  predicate ParamsCollected(c: Call, ids0: FileIds, t: nat, files: Option<seq<FileHandle>>, ids: FileIds)
    requires c.parameters.Some?
  {
    var ps0, m, i := c.parameters.value, c.methodName, c.instanceNumber;
    && t <= |ps0|
    && files == PushAll(c.files, Handles(CallSlots(ps0[..t])))
    && ids == WriteIds(ids0, CallSlots(ps0[..t]), m, i)
  }

  lemma ParamsScannedNext(c: Call, ids0: FileIds, t: nat, ps: seq<Value>,
                          files: Option<seq<FileHandle>>, ids: FileIds,
                          q: Value, files': Option<seq<FileHandle>>, ids': FileIds)
    requires c.parameters.Some? && ParamsScanned(c, ids0, t, ps, files, ids)
    requires t < |c.parameters.value|
    requires var p, m, i := c.parameters.value[t], c.methodName, c.instanceNumber;
             && !Throws(p) && q == Subst(p, m, i)
             && files' == PushAll(files, Handles(Slots(p)))
             && ids' == WriteIds(ids, Slots(p), m, i)
    ensures ParamsScanned(c, ids0, t + 1, ps[t := q], files', ids')
  {
    ParamsSubstitutedNext(c, t, ps, q);
    ParamsCollectedNext(c, ids0, t, files, ids, files', ids');
  }

  lemma ParamsSubstitutedNext(c: Call, t: nat, ps: seq<Value>, q: Value)
    requires c.parameters.Some? && ParamsSubstituted(c, t, ps) && t < |c.parameters.value|
    requires !Throws(c.parameters.value[t]) && q == Subst(c.parameters.value[t], c.methodName, c.instanceNumber)
    ensures ParamsSubstituted(c, t + 1, ps[t := q])
  {
  }

  lemma ParamsCollectedNext(c: Call, ids0: FileIds, t: nat, files: Option<seq<FileHandle>>, ids: FileIds,
                            files': Option<seq<FileHandle>>, ids': FileIds)
    requires c.parameters.Some? && ParamsCollected(c, ids0, t, files, ids) && t < |c.parameters.value|
    requires var p, m, i := c.parameters.value[t], c.methodName, c.instanceNumber;
             && files' == PushAll(files, Handles(Slots(p)))
             && ids' == WriteIds(ids, Slots(p), m, i)
    ensures ParamsCollected(c, ids0, t + 1, files', ids')
  {
    ParseCallStep(c.files, ids0, c.parameters.value, t, c.methodName, c.instanceNumber);
  }

  lemma ParamsScannedDone(c: Call, ids0: FileIds, ps: seq<Value>,
                          files: Option<seq<FileHandle>>, ids: FileIds)
    requires c.parameters.Some?
    requires ParamsScanned(c, ids0, |c.parameters.value|, ps, files, ids)
    ensures !CallThrows(c)
    ensures c.(parameters := Some(ps), files := files) == ParsedCall(c)
    ensures ids == CallWrites(c, ids0)
  {
    var ps0 := c.parameters.value;
    assert ps0[..|ps0|] == ps0;
    assert ps == SubstAll(ps0, c.methodName, c.instanceNumber);
  }

  /** The parameter loop of one call (lines 124-154). */
  method ParseCall(c: Call, ids0: FileIds) returns (ok: bool, r: Call, ids: FileIds)
    ensures ok == !CallThrows(c)
    ensures ok ==> r == ParsedCall(c) && ids == CallWrites(c, ids0)
  {
    ok, r, ids := true, c, ids0;
    if c.parameters.None? {
      ok := false;
      return;
    }
    var ps0 := c.parameters.value;
    var ps := ps0;
    var files := c.files;
    var t := 0;
    assert ps0[..0] == [];
    while t < |ps0|
      invariant ParamsScanned(c, ids0, t, ps, files, ids)
    {
      var good, q, files', ids' := ScanParam(ps0[t], c.methodName, c.instanceNumber, files, ids);
      if !good {
        ThrowingParamThrows(c, t);
        ok := false;
        return;
      }
      ParamsScannedNext(c, ids0, t, ps, files, ids, q, files', ids');
      ps := ps[t := q];
      files, ids := files', ids';
      t := t + 1;
    }
    ParamsScannedDone(c, ids0, ps, files, ids);
    r := c.(parameters := Some(ps), files := files);
  }

  /** A parameter that throws makes its call throw. */
  lemma ThrowingParamThrows(c: Call, t: nat)
    requires c.parameters.Some? && t < |c.parameters.value| && Throws(c.parameters.value[t])
    ensures CallThrows(c)
  {
  }

  lemma ParseCallStep(files0: Option<seq<FileHandle>>, ids0: FileIds, ps: seq<Value>, t: nat, m: string, i: nat)
    requires t < |ps|
    ensures PushAll(PushAll(files0, Handles(CallSlots(ps[..t]))), Handles(Slots(ps[t])))
            == PushAll(files0, Handles(CallSlots(ps[..t + 1])))
    ensures WriteIds(WriteIds(ids0, CallSlots(ps[..t]), m, i), Slots(ps[t]), m, i)
            == WriteIds(ids0, CallSlots(ps[..t + 1]), m, i)
  {
    assert ps[..t + 1][..t] == ps[..t];
    var before := CallSlots(ps[..t]);
    assert CallSlots(ps[..t + 1]) == before + Slots(ps[t]);
    HandlesAppend(before, Slots(ps[t]));
    PushAllAppend(files0, Handles(before), Handles(Slots(ps[t])));
    WriteIdsAppend(ids0, before, Slots(ps[t]), m, i);
  }

  /** The state of the call loop of `parseFiles` after `x` calls. */
  predicate CallsScanned(cs: seq<Call>, ids0: FileIds, x: nat, parsed: seq<Call>, ids: FileIds)
  {
    && x <= |cs|
    && BatchParses(cs[..x])
    && parsed == ParsedCalls(cs[..x])
    && ids == BatchWrites(cs[..x], ids0)
  }

  lemma CallsScannedNext(cs: seq<Call>, ids0: FileIds, x: nat, parsed: seq<Call>, ids: FileIds, c: Call, ids': FileIds)
    requires CallsScanned(cs, ids0, x, parsed, ids) && x < |cs|
    requires !CallThrows(cs[x]) && c == ParsedCall(cs[x]) && ids' == CallWrites(cs[x], ids)
    ensures CallsScanned(cs, ids0, x + 1, parsed + [c], ids')
  {
    BatchParsesSnoc(cs, x);
    BatchWritesSnoc(cs, ids0, x);
    ParsedCallsSnoc(cs, x);
  }

  lemma ParsedCallsSnoc(cs: seq<Call>, x: nat)
    requires x < |cs| && BatchParses(cs[..x + 1]) && BatchParses(cs[..x])
    ensures ParsedCalls(cs[..x + 1]) == ParsedCalls(cs[..x]) + [ParsedCall(cs[x])]
  {
    var a, b := ParsedCalls(cs[..x + 1]), ParsedCalls(cs[..x]);
    forall k | 0 <= k < x ensures a[k] == b[k] {
      assert cs[..x + 1][k] == cs[..x][k];
    }
    assert a[x] == ParsedCall(cs[x]);
  }

  lemma BatchParsesSnoc(cs: seq<Call>, x: nat)
    requires x < |cs| && BatchParses(cs[..x]) && !CallThrows(cs[x])
    ensures BatchParses(cs[..x + 1])
  {
    var s := cs[..x + 1];
    forall k | 0 <= k < |s| ensures !CallThrows(s[k]) {
      if k < x {
        assert s[k] == cs[..x][k];
      }
    }
  }

  lemma BatchWritesSnoc(cs: seq<Call>, ids0: FileIds, x: nat)
    requires x < |cs| && BatchParses(cs[..x + 1])
    ensures BatchParses(cs[..x])
    ensures BatchWrites(cs[..x + 1], ids0) == CallWrites(cs[x], BatchWrites(cs[..x], ids0))
  {
    assert cs[..x + 1][..x] == cs[..x];
  }

  lemma CallsScannedDone(cs: seq<Call>, ids0: FileIds, parsed: seq<Call>, ids: FileIds)
    requires CallsScanned(cs, ids0, |cs|, parsed, ids)
    ensures BatchParses(cs) && ids == BatchWrites(cs, ids0)
    ensures parsed == ParsedCalls(cs)
  {
    assert cs[..|cs|] == cs;
  }

  /** The call loop of `parseFiles` (lines 122-155). */
  method ParseAll(cs: seq<Call>, ids0: FileIds) returns (ok: bool, parsed: seq<Call>, ids: FileIds)
    ensures ok == BatchParses(cs)
    ensures ok ==> parsed == ParsedCalls(cs)
    ensures ok ==> ids == BatchWrites(cs, ids0)
  {
    ok, parsed, ids := true, [], ids0;
    var x := 0;
    assert cs[..0] == [];
    while x < |cs|
      invariant CallsScanned(cs, ids0, x, parsed, ids)
    {
      var good, c, ids' := ParseCall(cs[x], ids);
      if !good {
        ok := false;
        return;
      }
      CallsScannedNext(cs, ids0, x, parsed, ids, c, ids');
      parsed, ids := parsed + [c], ids';
      x := x + 1;
    }
    CallsScannedDone(cs, ids0, parsed, ids);
  }

  // ---------------------------------------------------------------------
  // What the scan finds and what it writes
  // ---------------------------------------------------------------------

  /** `a` comes before `b` in element-then-file order. */
  predicate Precedes(a: Slot, b: Slot)
  {
    a.z < b.z || (a.z == b.z && a.y < b.y)
  }

  /** The slot names the file handle at its own position in parameter `p`. */
  predicate SlotAt(p: Value, s: Slot)
  {
    match p
    case Arr(es) => s.z < |es| && es[s.z].FileInput? && s.y < |es[s.z].files| && es[s.z].files[s.y] == s.handle
    case FileInput(fs) => s.z == 0 && s.y < |fs| && fs[s.y] == s.handle
    case _ => false
  }

  /** Each slot of an array parameter names the handle at its own position. */
  lemma {:induction false} ArrSlotsAt(es: seq<Value>)
    ensures forall k :: 0 <= k < |ArrSlots(es)| ==> SlotAt(Arr(es), ArrSlots(es)[k])
  {
    if es != [] {
      var n := |es| - 1;
      var front := es[..n];
      ArrSlotsAt(front);
      var a, b := ArrSlots(front), ElemSlots(es[n], n);
      assert ArrSlots(es) == a + b;
      forall k | 0 <= k < |a| ensures SlotAt(Arr(es), a[k]) {
        assert SlotAt(Arr(front), a[k]);
        assert front[a[k].z] == es[a[k].z];
      }
    }
  }

  /** The slots of an array parameter run in element-then-file order. */
  lemma {:induction false} ArrSlotsOrdered(es: seq<Value>)
    ensures forall k, l :: 0 <= k < l < |ArrSlots(es)| ==> Precedes(ArrSlots(es)[k], ArrSlots(es)[l])
  {
    if es != [] {
      var n := |es| - 1;
      var front := es[..n];
      ArrSlotsOrdered(front);
      ArrSlotsAt(front);
      var a, b := ArrSlots(front), ElemSlots(es[n], n);
      assert ArrSlots(es) == a + b;
      forall k, l | 0 <= k < l < |a + b| ensures Precedes((a + b)[k], (a + b)[l]) {
        if l >= |a| && k < |a| {
          assert SlotAt(Arr(front), a[k]);
        }
      }
    }
  }

  /** Every handle of every file input element has its slot. */
  lemma {:induction false} ArrSlotsComplete(es: seq<Value>)
    ensures forall z, y :: 0 <= z < |es| && es[z].FileInput? && 0 <= y < |es[z].files| ==>
              Slot(es[z].files[y], z, y) in ArrSlots(es)
  {
    if es != [] {
      var n := |es| - 1;
      var front := es[..n];
      ArrSlotsComplete(front);
      var a, b := ArrSlots(front), ElemSlots(es[n], n);
      assert ArrSlots(es) == a + b;
      forall z, y | 0 <= z < |es| && es[z].FileInput? && 0 <= y < |es[z].files|
        ensures Slot(es[z].files[y], z, y) in a + b
      {
        if z < n {
          assert front[z] == es[z];
          assert Slot(front[z].files[y], z, y) in a;
        } else {
          assert b[y] == Slot(es[z].files[y], z, y);
        }
      }
    }
  }

  /**
   * The slots of a parameter enumerate its file handles exactly: each slot
   * names the handle at its own (element, file) position, every handle of a
   * file input has a slot, and the slots run in element-then-file order, so
   * no position is visited twice. A bare file input uses element index 0.
   */
  lemma SlotsEnumerateFiles(p: Value)
    ensures forall k :: 0 <= k < |Slots(p)| ==> SlotAt(p, Slots(p)[k])
    ensures forall k, l :: 0 <= k < l < |Slots(p)| ==> Precedes(Slots(p)[k], Slots(p)[l])
    ensures p.Arr? ==> forall z, y :: 0 <= z < |p.elems| && p.elems[z].FileInput? && 0 <= y < |p.elems[z].files| ==>
              Slot(p.elems[z].files[y], z, y) in Slots(p)
    ensures p.FileInput? ==> forall y :: 0 <= y < |p.files| ==> Slot(p.files[y], 0, y) in Slots(p)
  {
    if p.Arr? {
      ArrSlotsAt(p.elems);
      ArrSlotsOrdered(p.elems);
      ArrSlotsComplete(p.elems);
    } else if p.FileInput? {
      forall y | 0 <= y < |p.files| ensures Slot(p.files[y], 0, y) in Slots(p) {
        assert Slots(p)[y] == Slot(p.files[y], 0, y);
      }
    }
  }

  /**
   * Two bare file parameters of one call get the same ids (lines 146 and
   * 257-259): both first handles are written `..._files_0_0`, so after the
   * scan they carry the same `fileId`.
   */
  lemma BareFileInputsCollide(c: Call, h1: FileHandle, h2: FileHandle, ids: FileIds)
    requires c.parameters == Some([FileInput([h1]), FileInput([h2])])
    ensures var id := WriteFileId(c.methodName, c.instanceNumber, 0, 0);
            && ParsedCall(c).parameters == Some([Str(id), Str(id)])
            && h1 in CallWrites(c, ids) && CallWrites(c, ids)[h1] == id
            && h2 in CallWrites(c, ids) && CallWrites(c, ids)[h2] == id
  {
    var m, i := c.methodName, c.instanceNumber;
    var p1, p2 := FileInput([h1]), FileInput([h2]);
    BareFileInputSubst(h1, m, i);
    BareFileInputSubst(h2, m, i);
    CallSlotsPair(p1, p2);
    assert CallSlots(c.parameters.value) == [Slot(h1, 0, 0)] + [Slot(h2, 0, 0)] == [Slot(h1, 0, 0), Slot(h2, 0, 0)];
    assert SubstAll([p1, p2], m, i) == [Subst(p1, m, i), Subst(p2, m, i)];
    WriteIdsPair(ids, Slot(h1, 0, 0), Slot(h2, 0, 0), m, i);
    var id := WriteFileId(m, i, 0, 0);
    var w := ids[h1 := id][h2 := id];
    assert h1 in w && w[h1] == id;
  }

  /** A bare file input holding one handle becomes that handle's `..._files_0_0` id. */
  lemma BareFileInputSubst(h: FileHandle, m: string, i: nat)
    ensures Slots(FileInput([h])) == [Slot(h, 0, 0)]
    ensures Subst(FileInput([h]), m, i) == Str(WriteFileId(m, i, 0, 0))
  {
    assert FileSlots([h], 0) == [Slot(h, 0, 0)];
    assert Ids([Slot(h, 0, 0)], m, i) == [WriteFileId(m, i, 0, 0)];
  }

  lemma CallSlotsPair(p: Value, q: Value)
    ensures CallSlots([p, q]) == Slots(p) + Slots(q)
  {
    assert [p, q][..1] == [p];
    assert [p][..0] == [];
    assert CallSlots([p]) == [] + Slots(p) == Slots(p);
  }

  lemma WriteIdsPair(ids: FileIds, s1: Slot, s2: Slot, m: string, i: nat)
    ensures WriteIds(ids, [s1, s2], m, i)
            == ids[s1.handle := WriteFileId(m, i, s1.z, s1.y)][s2.handle := WriteFileId(m, i, s2.z, s2.y)]
  {
    assert [s1, s2][..1] == [s1];
    assert [s1][..0] == [];
    assert WriteIds(ids, [s1], m, i) == ids[s1.handle := WriteFileId(m, i, s1.z, s1.y)];
  }

  /**
   * Scanning a scanned call again changes nothing: no file input is left,
   * so no parameter is rewritten, no handle is pushed and no id is written.
   * A second `beginRequest` therefore resends the files of the first.
   */
  lemma {:induction false} ReparseIsIdentity(c: Call, ids: FileIds)
    requires !CallThrows(c)
    ensures !CallThrows(ParsedCall(c))
    ensures ParsedCall(ParsedCall(c)) == ParsedCall(c)
    ensures CallWrites(ParsedCall(c), ids) == ids
  {
    var ps := c.parameters.value;
    var qs := SubstAll(ps, c.methodName, c.instanceNumber);
    NoSlotsLeft(ps, c.methodName, c.instanceNumber);
    assert SubstAll(qs, c.methodName, c.instanceNumber) == qs;
  }

  lemma {:induction false} NoSlotsLeft(ps: seq<Value>, m: string, i: nat)
    requires forall t :: 0 <= t < |ps| ==> !Throws(ps[t])
    ensures CallSlots(SubstAll(ps, m, i)) == []
  {
    if ps != [] {
      var n := |ps| - 1;
      NoSlotsLeft(ps[..n], m, i);
      assert SubstAll(ps, m, i)[..n] == SubstAll(ps[..n], m, i);
    }
  }
}
