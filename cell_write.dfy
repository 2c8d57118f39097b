/**
 * `write_single_cell` of write_test.py: obtain a token, build a PATCH of a 1x1
 * value matrix against a worksheet range, and classify the reply.
 */
module CellWrite {
  import opened Wrappers
  import opened TokenCache

  const GraphBaseUrl: string := "https://graph.microsoft.com/v1.0"

  /** What the PATCH produced: an HTTP status, or an exception from the transport. */
  datatype PatchReply = Status(code: int) | TransportError

  /** The request sent: target URL, `Authorization` header and the JSON body's `values`. */
  datatype PatchRequest = PatchRequest(url: string, authorization: string, values: seq<seq<string>>)

  /** The request sent, if any, and the boolean `write_single_cell` returns. */
  datatype WriteOutcome = WriteOutcome(sent: Option<PatchRequest>, ok: bool)

  /** The prefix of a range URL, up to where the file id goes. */
  function ItemsPrefix(userId: string): string {
    GraphBaseUrl + "/users/" + userId + "/drive/items/"
  }

  /** The `.../range(address='...')/values` resource of one worksheet range of a drive item. */
  function RangeValuesUrl(userId: string, fileId: string, sheet: string, range: string): string {
    ItemsPrefix(userId) + fileId + "/workbook/worksheets('" + sheet + "')/range(address='" + range + "')/values"
  }

  /** The file id, sheet name and range address can be read back from a range URL at fixed offsets. */
  lemma RangeValuesUrlEmbeds(userId: string, fileId: string, sheet: string, range: string)
    ensures var url := RangeValuesUrl(userId, fileId, sheet, range);
      var f := |ItemsPrefix(userId)|;
      var s := f + |fileId| + |"/workbook/worksheets('"|;
      var r := s + |sheet| + |"')/range(address='"|;
      r + |range| <= |url| &&
      url[..f] == ItemsPrefix(userId) &&
      url[f..f + |fileId|] == fileId &&
      url[s..s + |sheet|] == sheet &&
      url[r..r + |range|] == range
  {
  }

  /** Only 200 and 204 count as a successful write; 202 does not. */
  predicate IsWriteSuccess(code: int) {
    code == 200 || code == 204
  }

  /**
   * The decision `write_single_cell` makes once `get_token` has answered `token`:
   * `reply` is what the PATCH would produce if it is sent.
   */
  function WriteSingleCell(token: Option<string>, userId: string, fileId: string, sheet: string,
                           range: string, value: string, reply: PatchReply): (w: WriteOutcome)
    // no request goes out without a token and a file id
    ensures w.sent.None? <==> !Truthy(token) || fileId == ""
    // success exactly for a sent request answered with 200 or 204
    ensures w.ok <==> w.sent.Some? && reply.Status? && (reply.code == 200 || reply.code == 204)
    // the request targets the range, carries the token, and its body is the 1x1 matrix [[value]]
    ensures w.sent.Some? ==>
      w.sent.value.url == RangeValuesUrl(userId, fileId, sheet, range) &&
      w.sent.value.authorization == "Bearer " + token.value &&
      |w.sent.value.values| == 1 && w.sent.value.values[0] == [value]
  {
    if !Truthy(token) || fileId == "" then
      WriteOutcome(None, false)
    else
      var request := PatchRequest(RangeValuesUrl(userId, fileId, sheet, range), "Bearer " + token.value, [[value]]);
      match reply
      case Status(code) => WriteOutcome(Some(request), IsWriteSuccess(code))
      case TransportError => WriteOutcome(Some(request), false)
  }

  /** A 202 Accepted reply is reported as a failed write. */
  lemma AcceptedIsFailure(token: Option<string>, userId: string, fileId: string, sheet: string, range: string, value: string)
    ensures !WriteSingleCell(token, userId, fileId, sheet, range, value, Status(202)).ok
  {
  }

  /**
   * The whole of `write_single_cell`: `get_token` runs first against `cache`,
   * then the write decision is taken on the token it returned.
   */
  method WriteCell(cache: Cache, creds: Credentials, now: int, tokenReply: ProviderReply,
                   userId: string, fileId: string, sheet: string, range: string, value: string,
                   reply: PatchReply) returns (ok: bool, sent: Option<PatchRequest>)
    modifies cache
    ensures var s := GetTokenStep(old(cache.State()), creds, now, tokenReply);
      cache.State() == s.cache &&
      WriteOutcome(sent, ok) == WriteSingleCell(s.token, userId, fileId, sheet, range, value, reply)
  {
    var token, _ := cache.GetToken(creds, now, tokenReply);
    var w := WriteSingleCell(token, userId, fileId, sheet, range, value, reply);
    ok, sent := w.ok, w.sent;
  }
}
