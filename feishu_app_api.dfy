/** The two Feishu open-platform calls the escalation worker makes: the read-receipt
    query (`getMessageReadUserIds`) and the urgent phone notification (`sendUrgentSms`).
    The HTTP transport is not modelled: each call's reply reaches the model as a
    `Response`, already parsed, and the model states how the callbacks turn it into
    the call's result. */
module FeishuAppApi {
  import opened Wrappers

  /** Why a call failed; every failure the callbacks resume with is one of these. */
  datatype Error =
    | Transport(message: string)  // `onError`: the HTTP layer reported an ApiException
    | ApiCode(code: int)          // the reply's `code` was not 0 (`code=<n>`)
    | Malformed                   // parsing or reading the reply threw

  /** One element of `data.items`: its `user_id`, when the key is present. */
  datatype ReadUser = ReadUser(userId: Option<string>)

  /** The reply's `data` object: its `items` array, when the key is present. */
  datatype ReplyData = ReplyData(items: Option<seq<ReadUser>>)

  /** A reply body as the callbacks' accessors read it: `code` is the number `asLong`
      returns (a numeric string such as "0" is read as its number, a fraction is
      truncated) and `user_id` the string `asString` returns (a number is read as its
      decimal text). */
  datatype Reply = Reply(code: Option<int>, data: Option<ReplyData>)

  /** What the HTTP layer delivers to a call's callback. */
  datatype Response =
    | TransportError(message: string)  // `onError`
    | Unparseable  // `onSuccess` with a body on which the parser or an accessor throws
    | Body(reply: Reply)  // `onSuccess` with a body the accessors read without throwing

  /** The value a missing `code` is read as. */
  const MissingCode: int := -1

  function ReplyCode(reply: Reply): int {
    reply.code.GetOr(MissingCode)
  }

  /** The items of `data.items`, none when `data` or `items` is absent. */
  function ReplyItems(reply: Reply): seq<ReadUser> {
    match reply.data
    case None => []
    case Some(data) => data.items.GetOr([])
  }

  /** An item contributes its id when `user_id` is present and non-empty. */
  predicate Kept(item: ReadUser) {
    item.userId.Some? && item.userId.value != ""
  }

  /** The ids collected from `items`, in order: the reference definition of the loop
      in `getMessageReadUserIds`. */
  function ReadUserIds(items: seq<ReadUser>): (ids: seq<string>)
    ensures |ids| <= |items|
    ensures forall k :: 0 <= k < |ids| ==> ids[k] != ""
  {
    if items == [] then []
    else
      var last := items[|items| - 1];
      ReadUserIds(items[..|items| - 1]) + (if Kept(last) then [last.userId.value] else [])
  }

  /** `ids` is `items` filtered: `idx` lists, in increasing order, exactly the positions
      of the items with a non-empty `user_id`, and `ids[k]` is the id at `idx[k]`. */
  ghost predicate SelectedInOrder(ids: seq<string>, items: seq<ReadUser>, idx: seq<int>) {
    |idx| == |ids|
    && (forall k :: 0 <= k < |idx| ==> 0 <= idx[k] < |items| && items[idx[k]].userId == Some(ids[k]))
    && (forall k, l :: 0 <= k < l < |idx| ==> idx[k] < idx[l])
    && (forall i :: 0 <= i < |items| ==> (i in idx <==> Kept(items[i])))
  }

  /** The collected ids are the subsequence of the items' ids that skips the missing and
      empty ones, with nothing added, dropped or reordered. */
  lemma {:induction false} ReadUserIdsSelects(items: seq<ReadUser>) returns (idx: seq<int>)
    ensures SelectedInOrder(ReadUserIds(items), items, idx)
  {
    if items == [] {
      idx := [];
    } else {
      var n := |items| - 1;
      var front := items[..n];
      var prev := ReadUserIdsSelects(front);
      assert forall i :: 0 <= i < n ==> items[i] == front[i];
      idx := prev + (if Kept(items[n]) then [n] else []);
    }
  }

  /** What `getMessageReadUserIds` resumes with. */
  function ReadUsersOutcome(response: Response): (r: Result<seq<string>, Error>)
    ensures r.Success? <==> response.Body? && response.reply.code == Some(0)
    ensures response.Body? && response.reply.code == Some(0) ==> r.value == ReadUserIds(ReplyItems(response.reply))
    ensures response.Body? && response.reply.code == None ==> r == Failure(ApiCode(-1))
    ensures response.Body? && response.reply.code.Some? && response.reply.code.value != 0 ==>
              r == Failure(ApiCode(response.reply.code.value))
    ensures response.TransportError? ==> r == Failure(Transport(response.message))
    ensures response.Unparseable? ==> r == Failure(Malformed)
  {
    match response
    case TransportError(message) => Failure(Transport(message))
    case Unparseable => Failure(Malformed)
    case Body(reply) =>
      if ReplyCode(reply) != 0 then Failure(ApiCode(ReplyCode(reply)))
      else Success(ReadUserIds(ReplyItems(reply)))
  }

  /** A successful reply without `data` or without `items` means nobody has read the message. */
  lemma AbsentItemsReadByNobody(data: Option<ReplyData>)
    requires data.None? || data.value.items.None?
    ensures ReadUsersOutcome(Body(Reply(Some(0), data))) == Success([])
  {
  }

  /** The read-receipt callbacks: `onError` and `onSuccess`, the latter building the id
      list with a loop that appends. */
  method OnReadUsersResponse(response: Response) returns (r: Result<seq<string>, Error>)
    ensures r == ReadUsersOutcome(response)
  {
    match response
    case TransportError(message) =>
      r := Failure(Transport(message));
    case Unparseable =>
      r := Failure(Malformed);
    case Body(reply) =>
      var code := ReplyCode(reply);
      if code != 0 {
        r := Failure(ApiCode(code));
        return;
      }
      var items := ReplyItems(reply);
      var ids: seq<string> := [];
      var i := 0;
      while i < |items|
        invariant 0 <= i <= |items|
        invariant ids == ReadUserIds(items[..i])
      {
        var uid := items[i].userId;
        if uid.Some? && uid.value != "" {
          ids := ids + [uid.value];
        }
        assert items[..i + 1][..i] == items[..i];
        i := i + 1;
      }
      assert items[..i] == items;
      r := Success(ids);
  }

  /** What `sendUrgentSms` resumes with: success exactly on a zero `code`. */
  function UrgentOutcome(response: Response): (r: Result<(), Error>)
    ensures r.Success? <==> response.Body? && response.reply.code == Some(0)
    ensures response.Body? && response.reply.code == None ==> r == Failure(ApiCode(-1))
    ensures response.Body? && response.reply.code.Some? && response.reply.code.value != 0 ==>
              r == Failure(ApiCode(response.reply.code.value))
    ensures response.TransportError? ==> r == Failure(Transport(response.message))
    ensures response.Unparseable? ==> r == Failure(Malformed)
  {
    match response
    case TransportError(message) => Failure(Transport(message))
    case Unparseable => Failure(Malformed)
    case Body(reply) =>
      if ReplyCode(reply) == 0 then Success(()) else Failure(ApiCode(ReplyCode(reply)))
  }

  /** The urgent call reads nothing of the reply but its `code`. */
  lemma UrgentIgnoresData(code: Option<int>, d1: Option<ReplyData>, d2: Option<ReplyData>)
    ensures UrgentOutcome(Body(Reply(code, d1))) == UrgentOutcome(Body(Reply(code, d2)))
  {
  }

  // Requests. The bearer token is looked up per application id and is not modelled.

  const ApiBase: string := "https://open.feishu.cn/open-apis/im/v1/messages/"
  const ReadUsersSuffix: string := "/read_users?user_id_type=user_id"
  const UrgentSuffix: string := "/urgent_phone?user_id_type=user_id"

  /** An outgoing request: the read query is a GET, the urgent call a PATCH whose JSON
      body holds `user_id_list`. */
  datatype HttpRequest = Get(url: string) | Patch(url: string, userIdList: seq<string>)

  /** The message id a URL of the form `ApiBase + id + suffix` names. */
  function MessageOfUrl(url: string, suffix: string): Option<string> {
    if |ApiBase| + |suffix| <= |url| && url[..|ApiBase|] == ApiBase && url[|url| - |suffix|..] == suffix
    then Some(url[|ApiBase|..|url| - |suffix|])
    else None
  }

  /** The read-receipt query for one message. */
  function ReadUsersRequest(messageId: string): (r: HttpRequest)
    ensures r.Get? && MessageOfUrl(r.url, ReadUsersSuffix) == Some(messageId)
  {
    var url := ApiBase + messageId + ReadUsersSuffix;
    assert url[..|ApiBase|] == ApiBase;
    assert url[|url| - |ReadUsersSuffix|..] == ReadUsersSuffix;
    assert url[|ApiBase|..|url| - |ReadUsersSuffix|] == messageId;
    Get(url)
  }

  /** The urgent phone notification of one user for one message. */
  function UrgentRequest(userId: string, messageId: string): (r: HttpRequest)
    ensures r.Patch? && MessageOfUrl(r.url, UrgentSuffix) == Some(messageId)
    ensures r.userIdList == [userId]
  {
    var url := ApiBase + messageId + UrgentSuffix;
    assert url[..|ApiBase|] == ApiBase;
    assert url[|url| - |UrgentSuffix|..] == UrgentSuffix;
    assert url[|ApiBase|..|url| - |UrgentSuffix|] == messageId;
    Patch(url, [userId])
  }
}
