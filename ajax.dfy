/**
 * The `Nina.ajax` object (lib/ajax.js:99-281): construction with its
 * auto-start rule, `beginRequest` (batch normalisation, numbering, the call
 * map, request configuration, file substitution and the form), and the
 * default `readyStateChange` handler that routes the server's answer object
 * to the calls' procedures.
 *
 * The transport is a record: `open` and `setRequestHeader` become the
 * request's verb, url, async flag and headers, the `FormData` its parts, and
 * `send` its `sent` flag. The UUID is an input; the parsed response body is
 * an abstract map from keys to opaque payloads.
 */
module Ajax {
  import opened Base
  import opened AjaxBatch
  import opened AjaxFiles
  import opened AjaxForm

  datatype Header = Header(name: string, value: string)

  /**
   * The recognised members of `options`; `None` is a member left
   * `undefined`. The event callbacks are not part of this model.
   */
  datatype Options = Options(
    verb: Option<string>,
    responderUrl: Option<string>,
    contentType: Option<string>,
    async: Option<bool>,
    headers: Option<seq<Header>>,
    delayRequest: Option<bool>)

  /** `{ }`, which stands in for a missing `options` argument. */
  const NoOptions := Options(None, None, None, None, None, None)

  const DefaultContentType := "application/x-www-form-urlencoded; charset=utf-8"

  /** What was handed to `open`, `setRequestHeader`, `append` and `send`. */
  datatype Request = Request(
    verb: string,
    url: string,
    async: bool,
    headers: seq<Header>,
    form: seq<FormPart>,
    sent: bool)

  /**
   * The auto-start test at lib/ajax.js:277: only an explicit `false` delays
   * the request; `true` and a missing member both start it at construction.
   */
  function AutoStart(o: Options): (r: bool)
    ensures o.delayRequest.None? ==> r
    ensures o.delayRequest == Some(true) ==> r
    ensures o.delayRequest == Some(false) ==> !r
  {
    o.delayRequest != Some(false)
  }

  /**
   * The `setRequestHeader` calls of lines 229-235: Content-Type (default
   * form encoding), then X-Requested-With, then the user's headers in
   * their given order.
   */
  method BuildHeaders(o: Options) returns (hs: seq<Header>)
    ensures |hs| == 2 + |o.headers.GetOr([])|
    ensures hs[0] == Header("Content-Type", OrString(o.contentType, DefaultContentType))
    ensures hs[1] == Header("X-Requested-With", "XMLHttpRequest")
    ensures hs[2..] == o.headers.GetOr([])
  {
    hs := [Header("Content-Type", OrString(o.contentType, DefaultContentType)),
           Header("X-Requested-With", "XMLHttpRequest")];
    if o.headers.Some? {
      var user := o.headers.value;
      var x := 0;
      while x < |user|
        invariant 0 <= x <= |user|
        invariant |hs| == 2 + x
        invariant hs[0] == Header("Content-Type", OrString(o.contentType, DefaultContentType))
        invariant hs[1] == Header("X-Requested-With", "XMLHttpRequest")
        invariant hs[2..] == user[..x]
      {
        assert user[..x + 1] == user[..x] + [user[x]];
        hs := hs + [user[x]];
        x := x + 1;
      }
      assert user[..|user|] == user;
    }
  }

  /**
   * The `open` and `setRequestHeader` calls of lines 228-235: verb `POST`
   * unless a non-empty one is given, the responder URL (default
   * `/responder`) with the request id as query, asynchronous unless `async`
   * is exactly `false`, and the headers in the order `BuildHeaders` gives.
   */
  predicate OpenedAs(r: Request, o: Options, uuid: string)
  {
    r.verb == OrString(o.verb, "POST") &&
    r.url == OrString(o.responderUrl, "/responder") + "?" + uuid &&
    r.async == (o.async != Some(false)) &&
    |r.headers| == 2 + |o.headers.GetOr([])| &&
    r.headers[0] == Header("Content-Type", OrString(o.contentType, DefaultContentType)) &&
    r.headers[1] == Header("X-Requested-With", "XMLHttpRequest") &&
    r.headers[2..] == o.headers.GetOr([])
  }

  /** `open` and the headers, for a request whose form is `form`. */
  method OpenRequest(o: Options, uuid: string, form: seq<FormPart>, sent: bool) returns (r: Request)
    ensures OpenedAs(r, o, uuid) && r.form == form && r.sent == sent
  {
    var hs := BuildHeaders(o);
    r := Request(OrString(o.verb, "POST"), OrString(o.responderUrl, "/responder") + "?" + uuid,
                 o.async != Some(false), hs, form, sent);
  }

  /**
   * The state `beginRequest` leaves when it starts from batch `args0`, file
   * ids `ids0`, options `o` and UUID `uuid`. When `parseFiles` throws, the
   * request is opened with its headers and holds only the `id` part, and
   * is never sent; the batch, the map and the file ids are then left partly
   * rewritten and are not described here.
   */
  predicate BegunAs(args0: Args, ids0: FileIds, o: Options, uuid: string,
                    args: Args, callMap: seq<MapEntry>, instances: map<string, int>,
                    ids: FileIds, id: string, request: Option<Request>)
  {
    var cs := Numbered(Normalize(args0));
    instances == InstanceCounts(Normalize(args0)) &&
    id == uuid &&
    args.Batch? && |args.calls| == |cs| &&
    request.Some? &&
    OpenedAs(request.value, o, uuid) &&
    request.value.sent == BatchParses(cs) &&
    (BatchParses(cs) ==>
       args.calls == ParsedCalls(cs) &&
       callMap == Entries(args.calls) &&
       ids == BatchWrites(cs, ids0) &&
       request.value.form == [TextPart("id", uuid), MapPart(callMap)] + FileParts(args.calls, ids)) &&
    (!BatchParses(cs) ==> request.value.form == [TextPart("id", uuid)])
  }

  lemma BegunWhenParsed(args0: Args, ids0: FileIds, o: Options, uuid: string,
                        instances: map<string, int>, parsed: seq<Call>, ids: FileIds, r: Request)
    requires instances == InstanceCounts(Normalize(args0))
    requires BatchParses(Numbered(Normalize(args0)))
    requires parsed == ParsedCalls(Numbered(Normalize(args0)))
    requires ids == BatchWrites(Numbered(Normalize(args0)), ids0)
    requires OpenedAs(r, o, uuid) && r.sent
    requires r.form == [TextPart("id", uuid), MapPart(Entries(parsed))] + FileParts(parsed, ids)
    ensures BegunAs(args0, ids0, o, uuid, Batch(parsed), Entries(parsed), instances, ids, uuid, Some(r))
  {
  }

  lemma BegunWhenThrown(args0: Args, ids0: FileIds, o: Options, uuid: string,
                        instances: map<string, int>, numbered: seq<Call>, entries: seq<MapEntry>, r: Request)
    requires instances == InstanceCounts(Normalize(args0))
    requires !BatchParses(Numbered(Normalize(args0)))
    requires numbered == Numbered(Normalize(args0))
    requires OpenedAs(r, o, uuid) && !r.sent && r.form == [TextPart("id", uuid)]
    ensures BegunAs(args0, ids0, o, uuid, Batch(numbered), entries, instances, ids0, uuid, Some(r))
  {
  }

  /**
   * The work of `beginRequest` on values: number the batch, open the
   * request, put the `id` part, run `parseFiles`, then put the map and the
   * file parts and send. `ok` is false when `parseFiles` throws.
   */
  method Begin(args0: Args, ids0: FileIds, o: Options, uuid: string)
    returns (ok: bool, args: Args, callMap: seq<MapEntry>, instances: map<string, int>, ids: FileIds,
             request: Option<Request>)
    ensures BegunAs(args0, ids0, o, uuid, args, callMap, instances, ids, uuid, request)
    ensures ok == request.value.sent
  {
    var cs := Normalize(args0);
    var numbered, entries;
    numbered, instances, entries := NumberCalls(cs);
    var form := [TextPart("id", uuid)];
    var parsed;
    ok, parsed, ids := ParseAll(numbered, ids0);
    var r;
    if !ok {
      r := OpenRequest(o, uuid, form, false);
      BegunWhenThrown(args0, ids0, o, uuid, instances, numbered, entries, r);
      args, callMap, ids := Batch(numbered), entries, ids0;
    } else {
      callMap := Entries(parsed);
      form := AppendFileParts(parsed, ids, form + [MapPart(callMap)]);
      r := OpenRequest(o, uuid, form, true);
      BegunWhenParsed(args0, ids0, o, uuid, instances, parsed, ids, r);
      args := Batch(parsed);
    }
    request := Some(r);
  }

  /** An opaque value of the server's answer object. */
  datatype Payload = Payload(id: nat)

  /** The parsed response body: `allResults`. */
  type Envelope = map<string, Payload>

  /** One `procedure.apply` of line 274: the call's index, its key and `allResults[key]`. */
  datatype Dispatch = Dispatch(call: nat, key: string, result: Option<Payload>)

  /** What the default handler does with one `readystatechange` event. */
  datatype Outcome =
    | Waiting                                         // line 264: not done yet, or no status
    | Failed(status: int)                             // lines 265-269: logged, no callback
    | Unparsable                                      // line 270: `JSON.parse` throws
    | Delivered(dispatches: seq<Dispatch>, threw: bool) // lines 272-275

  function Get(all: Envelope, key: string): Option<Payload>
  {
    if key in all then Some(all[key]) else None
  }

  /** The call list the dispatch loop walks: `args.length` of a single descriptor is `undefined`. */
  function CallsOf(a: Args): seq<Call>
  {
    if a.Batch? then a.calls else []
  }

  /** Every call of the batch dispatched once, in batch order, with its own key. */
  function Deliveries(cs: seq<Call>, instances: map<string, int>, all: Envelope): seq<Dispatch>
  {
    seq(|cs|, k requires 0 <= k < |cs| => Dispatch(k, ResultKey(cs[k], instances), Get(all, ResultKey(cs[k], instances))))
  }

  class AjaxRequest {
    /** The closure variable `args`: a descriptor, or after `beginRequest` the batch. */
    var args: Args
    const options: Options
    /** `self.map`. */
    var callMap: seq<MapEntry>
    var methodInstances: map<string, int>
    /** The `fileId` property of every file handle. */
    var fileIds: FileIds
    var id: string
    var request: Option<Request>

    /**
     * The state `beginRequest` leaves when it starts from batch `args0`,
     * file ids `ids0` and UUID `uuid`. When `parseFiles` throws, the request
     * is opened with its headers and holds only the `id` part, and is never
     * sent; the batch, the map and the file ids are then left partly
     * rewritten and are not described here.
     */
    predicate Begun(args0: Args, ids0: FileIds, uuid: string)
      reads this
    {
      BegunAs(args0, ids0, options, uuid, args, callMap, methodInstances, fileIds, id, request)
    }

    /**
     * `Nina.ajax(args, options)`: `options || { }`, then `beginRequest`
     * unless `delayRequest` is exactly `false`. `ids0` are the `fileId`
     * properties the file handles already carry, which an earlier request
     * may have written.
     */
    constructor (args0: Args, options0: Option<Options>, ids0: FileIds, uuid: string)
      ensures options == options0.GetOr(NoOptions)
      ensures AutoStart(options) ==> Begun(args0, ids0, uuid)
      ensures !AutoStart(options) ==> args == args0 && fileIds == ids0 && request.None?
    {
      args := args0;
      options := options0.GetOr(NoOptions);
      callMap := [];
      methodInstances := map[];
      fileIds := ids0;
      id := "";
      request := None;
      new;
      if AutoStart(options) {
        var _ := BeginRequest(uuid);
      }
    }

    /** `beginRequest` (lib/ajax.js:167-249); `ok` is false when `parseFiles` throws. */
    method BeginRequest(uuid: string) returns (ok: bool)
      modifies this
      ensures Begun(old(args), old(fileIds), uuid)
      ensures ok == request.value.sent
    {
      ok, args, callMap, methodInstances, fileIds, request := Begin(args, fileIds, options, uuid);
      id := uuid;
    }

    /**
     * The default `readyStateChange` (lib/ajax.js:260-276) for a request in
     * ready state `readyState` with HTTP status `status`; `response` is the
     * parsed body, `None` when it is not JSON. The loop stops at the first
     * call without a `procedure`, where `apply` throws a TypeError.
     */
    method ReadyStateChange(readyState: int, status: int, response: Option<Envelope>) returns (o: Outcome)
      ensures o.Waiting? <==> readyState != 4 || status == 0
      ensures o.Failed? <==> readyState == 4 && status != 0 && status != 200
      ensures o.Failed? ==> o.status == status
      ensures o.Unparsable? <==> readyState == 4 && status == 200 && response.None?
      ensures o.Delivered? ==>
                var cs := CallsOf(args);
                var ds := o.dispatches;
                |ds| <= |cs| &&
                ds == Deliveries(cs, methodInstances, response.value)[..|ds|] &&
                (forall k :: 0 <= k < |ds| ==> cs[k].hasProcedure) &&
                (o.threw <==> |ds| < |cs|) &&
                (o.threw ==> !cs[|ds|].hasProcedure)
    {
      if readyState != 4 || status == 0 {
        return Waiting;
      }
      if status != 200 {
        return Failed(status);
      }
      if response.None? {
        return Unparsable;
      }
      var all := response.value;
      var cs := CallsOf(args);
      var ds: seq<Dispatch> := [];
      var x := 0;
      while x < |cs|
        invariant 0 <= x <= |cs| && |ds| == x
        invariant ds == Deliveries(cs, methodInstances, all)[..x]
        invariant forall k :: 0 <= k < x ==> cs[k].hasProcedure
      {
        if !cs[x].hasProcedure {
          return Delivered(ds, true);
        }
        var key := ResultKey(cs[x], methodInstances);
        ds := ds + [Dispatch(x, key, Get(all, key))];
        x := x + 1;
      }
      return Delivered(ds, false);
    }
  }

  // ---------------------------------------------------------------------
  // Routing after `beginRequest`
  // ---------------------------------------------------------------------

  /**
   * After a successful `beginRequest` the x-th call is looked up under the
   * bare method name when its method occurs once in the batch, and under
   * `method_n`, n the number of earlier calls with that method, otherwise.
   */
  lemma DispatchKeyAfterBegin(cs: seq<Call>, x: nat)
    requires x < |cs| && BatchParses(Numbered(cs))
    ensures var m := cs[x].methodName;
            ResultKey(ParsedCalls(Numbered(cs))[x], InstanceCounts(cs))
            == if Occ(cs, m) > 1 then m + "_" + NatToString(Occ(cs[..x], m)) else m
  {
    KeyAfterNumbering(cs, x);
  }

  /**
   * After a successful `beginRequest`, two calls of the same method are
   * never handed the same entry of the answer object.
   */
  lemma SameMethodNeverShareAnswer(cs: seq<Call>, x: nat, y: nat, all: Envelope)
    requires x < y < |cs| && cs[x].methodName == cs[y].methodName
    requires BatchParses(Numbered(cs))
    ensures var ds := Deliveries(ParsedCalls(Numbered(cs)), InstanceCounts(cs), all);
            ds[x].key != ds[y].key
  {
    SameMethodDistinctKeys(cs, x, y);
  }
}
