/**
 * The multipart body of a `Nina.ajax` request (lib/ajax.js:236-246): the
 * field `id`, the field `map`, then one part per file handle of each call,
 * named by the handle's `fileId`.
 */
module AjaxForm {
  import opened Base
  import opened AjaxBatch
  import opened AjaxFiles

  /**
   * A part of the `FormData`. The `map` field is kept as the entries that
   * `JSON.stringify` serialises. A file part whose handle has no `fileId`
   * has name `None` (JavaScript would name it "undefined").
   */
  datatype FormPart =
    | TextPart(field: string, value: string)
    | MapPart(entries: seq<MapEntry>)
    | FilePart(fileName: Option<string>, file: FileHandle)

  function Lookup(ids: FileIds, h: FileHandle): Option<string>
  {
    if h in ids then Some(ids[h]) else None
  }

  /** The parts one call contributes (lines 241-245). */
  function CallFileParts(c: Call, ids: FileIds): seq<FormPart>
  {
    var fs := c.files.GetOr([]);
    seq(|fs|, z requires 0 <= z < |fs| => FilePart(Lookup(ids, fs[z]), fs[z]))
  }

  /** The parts of all calls, grouped by call in batch order. */
  function FileParts(cs: seq<Call>, ids: FileIds): seq<FormPart>
  {
    if cs == [] then [] else FileParts(cs[..|cs| - 1], ids) + CallFileParts(cs[|cs| - 1], ids)
  }

  /** The inner loop at lines 242-244. */
  method AppendCallFiles(c: Call, ids: FileIds, form0: seq<FormPart>) returns (form: seq<FormPart>)
    ensures form == form0 + CallFileParts(c, ids)
  {
    form := form0;
    if c.files.Some? {
      var fs := c.files.value;
      var z := 0;
      while z < |fs|
        invariant 0 <= z <= |fs| && |form| == |form0| + z
        invariant form[..|form0|] == form0
        invariant forall k :: 0 <= k < z ==> form[|form0| + k] == FilePart(Lookup(ids, fs[k]), fs[k])
      {
        form := form + [FilePart(Lookup(ids, fs[z]), fs[z])];
        z := z + 1;
      }
    }
  }

  /** The outer loop at lines 240-246. */
  method AppendFileParts(cs: seq<Call>, ids: FileIds, form0: seq<FormPart>) returns (form: seq<FormPart>)
    ensures form == form0 + FileParts(cs, ids)
  {
    form := form0;
    var x := 0;
    while x < |cs|
      invariant 0 <= x <= |cs|
      invariant form == form0 + FileParts(cs[..x], ids)
    {
      var done := FileParts(cs[..x], ids);
      form := AppendCallFiles(cs[x], ids, form);
      FilePartsSnoc(cs, x, ids);
      assert form == form0 + (done + CallFileParts(cs[x], ids));
      x := x + 1;
    }
    assert cs[..|cs|] == cs;
  }

  lemma FilePartsSnoc(cs: seq<Call>, x: nat, ids: FileIds)
    requires x < |cs|
    ensures FileParts(cs[..x + 1], ids) == FileParts(cs[..x], ids) + CallFileParts(cs[x], ids)
  {
    assert cs[..x + 1][..x] == cs[..x];
  }

  // ---------------------------------------------------------------------
  // File parts against the ids written into the map
  // ---------------------------------------------------------------------

  /** A file handle with the id the scan gives it. */
  datatype Tag = Tag(handle: FileHandle, id: string)

  function SlotTags(ss: seq<Slot>, m: string, i: nat): seq<Tag>
  {
    seq(|ss|, k requires 0 <= k < |ss| => Tag(ss[k].handle, WriteFileId(m, i, ss[k].z, ss[k].y)))
  }

  /** The handles a call's scan finds, each with the id substituted for it in the map. */
  function CallTags(c: Call): seq<Tag>
    requires c.parameters.Some?
  {
    SlotTags(CallSlots(c.parameters.value), c.methodName, c.instanceNumber)
  }

  function BatchTags(cs: seq<Call>): seq<Tag>
    requires BatchParses(cs)
  {
    if cs == [] then [] else BatchTags(cs[..|cs| - 1]) + CallTags(cs[|cs| - 1])
  }

  function ApplyTags(ids: FileIds, ts: seq<Tag>): FileIds
  {
    if ts == [] then ids else ApplyTags(ids, ts[..|ts| - 1])[ts[|ts| - 1].handle := ts[|ts| - 1].id]
  }

  lemma {:induction false} WriteIdsAsTags(ids: FileIds, ss: seq<Slot>, m: string, i: nat)
    ensures WriteIds(ids, ss, m, i) == ApplyTags(ids, SlotTags(ss, m, i))
  {
    if ss != [] {
      var n := |ss| - 1;
      WriteIdsAsTags(ids, ss[..n], m, i);
      assert SlotTags(ss, m, i)[..n] == SlotTags(ss[..n], m, i);
    }
  }

  lemma {:induction false} ApplyTagsAppend(ids: FileIds, a: seq<Tag>, b: seq<Tag>)
    ensures ApplyTags(ids, a + b) == ApplyTags(ApplyTags(ids, a), b)
  {
    if b == [] {
      assert a + b == a;
    } else {
      var n := |b| - 1;
      assert (a + b)[..|a + b| - 1] == a + b[..n];
      ApplyTagsAppend(ids, a, b[..n]);
    }
  }

  lemma {:induction false} BatchWritesAsTags(cs: seq<Call>, ids: FileIds)
    requires BatchParses(cs)
    ensures BatchWrites(cs, ids) == ApplyTags(ids, BatchTags(cs))
  {
    if cs != [] {
      var n := |cs| - 1;
      assert BatchParses(cs[..n]) by {
        forall x | 0 <= x < n ensures cs[..n][x] == cs[x] { }
      }
      BatchWritesAsTags(cs[..n], ids);
      var c := cs[n];
      WriteIdsAsTags(BatchWrites(cs[..n], ids), CallSlots(c.parameters.value), c.methodName, c.instanceNumber);
      ApplyTagsAppend(ids, BatchTags(cs[..n]), CallTags(c));
    }
  }

  /** With pairwise distinct handles, each handle keeps the id of its own tag. */
  lemma {:induction false} ApplyTagsDistinct(ids: FileIds, ts: seq<Tag>)
    requires forall k, l :: 0 <= k < l < |ts| ==> ts[k].handle != ts[l].handle
    ensures forall k :: 0 <= k < |ts| ==> Lookup(ApplyTags(ids, ts), ts[k].handle) == Some(ts[k].id)
  {
    if ts != [] {
      var n := |ts| - 1;
      ApplyTagsDistinct(ids, ts[..n]);
      forall k | 0 <= k < n ensures ts[..n][k] == ts[k] { }
    }
  }

  function TagParts(ts: seq<Tag>, w: FileIds): seq<FormPart>
  {
    seq(|ts|, k requires 0 <= k < |ts| => FilePart(Lookup(w, ts[k].handle), ts[k].handle))
  }

  lemma TagPartsAppend(a: seq<Tag>, b: seq<Tag>, w: FileIds)
    ensures TagParts(a + b, w) == TagParts(a, w) + TagParts(b, w)
  {
  }

  /** A call without a prior `files` list gets one part per scanned handle. */
  lemma CallFilePartsFollowTags(c: Call, w: FileIds)
    requires c.parameters.Some? && c.files.None?
    ensures CallFileParts(ParsedCall(c), w) == TagParts(CallTags(c), w)
  {
    var ss := CallSlots(c.parameters.value);
    var hs := Handles(ss);
    assert ParsedCall(c).files.GetOr([]) == hs;
    assert |CallTags(c)| == |hs|;
  }

  /**
   * When no call had a `files` list before the scan, the file parts are
   * the scanned handles, one part each, grouped by call in batch order.
   */
  lemma {:induction false} FilePartsFollowTags(cs: seq<Call>, w: FileIds)
    requires BatchParses(cs)
    requires forall x :: 0 <= x < |cs| ==> cs[x].files.None?
    ensures FileParts(ParsedCalls(cs), w) == TagParts(BatchTags(cs), w)
  {
    if cs != [] {
      var n := |cs| - 1;
      assert BatchParses(cs[..n]) by {
        forall x | 0 <= x < n ensures cs[..n][x] == cs[x] { }
      }
      FilePartsFollowTags(cs[..n], w);
      var pcs := ParsedCalls(cs);
      assert pcs[..|pcs| - 1] == ParsedCalls(cs[..n]);
      CallFilePartsFollowTags(cs[n], w);
      TagPartsAppend(BatchTags(cs[..n]), CallTags(cs[n]), w);
    }
  }

  /**
   * The file parts carry exactly the ids substituted into the map: when no
   * file handle occurs twice in the batch and no call had a `files` list
   * before, the k-th file part is the k-th scanned handle, named by the id
   * the scan substituted for it.
   */
  lemma FilePartsNamedByIds(cs: seq<Call>, ids0: FileIds)
    requires BatchParses(cs)
    requires forall x :: 0 <= x < |cs| ==> cs[x].files.None?
    requires var ts := BatchTags(cs);
             forall k, l :: 0 <= k < l < |ts| ==> ts[k].handle != ts[l].handle
    ensures var ts := BatchTags(cs);
            FileParts(ParsedCalls(cs), BatchWrites(cs, ids0))
            == seq(|ts|, k requires 0 <= k < |ts| => FilePart(Some(ts[k].id), ts[k].handle))
  {
    var w := BatchWrites(cs, ids0);
    BatchWritesAsTags(cs, ids0);
    ApplyTagsDistinct(ids0, BatchTags(cs));
    FilePartsFollowTags(cs, w);
  }
}
