/**
 * `find_file_id` of get_file_id_from_name.py: search the user's drive for a
 * filename and return the id of the first item whose name matches it without
 * regard to letter case.
 */
module FileLookup {
  import opened Wrappers

  const GraphBaseUrl: string := "https://graph.microsoft.com/v1.0"

  /** One entry of the search reply's `value` list. */
  datatype DriveItem = DriveItem(id: string, name: string, parentPath: string)

  /** The search reply: its HTTP status and its `value` list, which may be absent. */
  datatype SearchReply = SearchReply(status: int, value: Option<seq<DriveItem>>)

  /** The GET that is sent: target URL and `Authorization` header. */
  datatype SearchRequest = SearchRequest(url: string, authorization: string)

  function SearchUrl(userId: string, filename: string): string {
    GraphBaseUrl + "/users/" + userId + "/drive/root/search(q='" + filename + "')"
  }

  /** `f"Bearer {token}"`, where a missing token is rendered as `None`. */
  function BearerHeader(token: Option<string>): string {
    "Bearer " + token.GetOr("None")
  }

  function LowerChar(c: char): char {
    if 'A' <= c <= 'Z' then (c as int + 32) as char else c
  }

  /** `str.lower()`, restricted to ASCII letters. */
  function Lower(s: string): (r: string)
    // no capital letter is left, and every other character stays where it was
    ensures |r| == |s|
    ensures forall i :: 0 <= i < |r| ==> !('A' <= r[i] <= 'Z')
    ensures forall i :: 0 <= i < |s| && !('A' <= s[i] <= 'Z') ==> r[i] == s[i]
  {
    seq(|s|, i requires 0 <= i < |s| => LowerChar(s[i]))
  }

  predicate NameMatches(item: DriveItem, filename: string) {
    Lower(item.name) == Lower(filename)
  }

  /** `response.json().get("value", [])`. */
  function Items(reply: SearchReply): seq<DriveItem> {
    reply.value.GetOr([])
  }

  /** The position of the first item, in list order, whose name matches `filename`. */
  function FirstMatch(items: seq<DriveItem>, filename: string): (r: Option<nat>)
    ensures r.Some? ==> r.value < |items| && NameMatches(items[r.value], filename)
    ensures r.Some? ==> forall j :: 0 <= j < r.value ==> !NameMatches(items[j], filename)
    ensures r.None? ==> forall j :: 0 <= j < |items| ==> !NameMatches(items[j], filename)
    decreases |items|
  {
    if items == [] then None
    else if NameMatches(items[0], filename) then Some(0)
    else match FirstMatch(items[1..], filename)
      case None => None
      case Some(k) => Some(k + 1)
  }

  /** The id `find_file_id` returns for `reply`: nothing unless the status is 200 and an item matches. */
  function Lookup(reply: SearchReply, filename: string): Option<string> {
    if reply.status != 200 then None
    else match FirstMatch(Items(reply), filename)
      case None => None
      case Some(k) => Some(Items(reply)[k].id)
  }

  /**
   * `find_file_id`: the search request is always sent, whether or not a token was
   * obtained; the items are then scanned in order and the first match's id returned.
   */
  method FindFileId(token: Option<string>, userId: string, filename: string, reply: SearchReply)
    returns (request: SearchRequest, id: Option<string>)
    ensures request == SearchRequest(SearchUrl(userId, filename), BearerHeader(token))
    ensures id == Lookup(reply, filename)
  {
    request := SearchRequest(SearchUrl(userId, filename), BearerHeader(token));
    if reply.status != 200 {
      return request, None;
    }
    var items := Items(reply);
    var wanted := Lower(filename);
    var i := 0;
    while i < |items|
      invariant 0 <= i <= |items|
      invariant forall j :: 0 <= j < i ==> !NameMatches(items[j], filename)
    {
      if Lower(items[i].name) == wanted {
        assert FirstMatch(items, filename) == Some(i);
        return request, Some(items[i].id);
      }
      i := i + 1;
    }
    assert FirstMatch(items, filename) == None;
    id := None;
  }

  /** A non-200 search yields nothing, whatever the items. */
  lemma FailedSearchFindsNothing(reply: SearchReply, filename: string)
    requires reply.status != 200
    ensures Lookup(reply, filename) == None
  {
  }

  /** A reply without a `value` list is treated as an empty list and yields nothing. */
  lemma MissingValueFindsNothing(reply: SearchReply, filename: string)
    requires reply.value == None
    ensures Lookup(reply, filename) == None
  {
  }

  /**
   * An id is returned exactly when the status is 200 and it is the id of an item that
   * matches the filename and is preceded by no other matching item.
   */
  lemma LookupIsFirstMatchingId(reply: SearchReply, filename: string, id: string)
    ensures Lookup(reply, filename) == Some(id) <==>
      reply.status == 200 &&
      exists k :: 0 <= k < |Items(reply)| && Items(reply)[k].id == id && NameMatches(Items(reply)[k], filename) &&
        forall j :: 0 <= j < k ==> !NameMatches(Items(reply)[j], filename)
  {
  }

  /** Nothing is found exactly when the search failed or no item's name matches. */
  lemma NothingFoundIffNoMatch(reply: SearchReply, filename: string)
    ensures Lookup(reply, filename) == None <==>
      reply.status != 200 || forall j :: 0 <= j < |Items(reply)| ==> !NameMatches(Items(reply)[j], filename)
  {
  }

  /** Matching depends on the filename only through its lowercase form. */
  lemma FirstMatchCaseInsensitive(items: seq<DriveItem>, f1: string, f2: string)
    requires Lower(f1) == Lower(f2)
    ensures FirstMatch(items, f1) == FirstMatch(items, f2)
  {
  }

  /** Lowercasing twice is lowercasing once. */
  lemma LowerIdempotent(s: string)
    ensures Lower(Lower(s)) == Lower(s)
  {
  }

  /** Looking up a filename gives the same answer as looking up its lowercase form. */
  lemma LookupIgnoresQueryCase(reply: SearchReply, filename: string)
    ensures Lookup(reply, filename) == Lookup(reply, Lower(filename))
  {
  }

  /** Filenames differing only in letter case give the same answer. */
  lemma LookupCaseInsensitive(reply: SearchReply, f1: string, f2: string)
    requires Lower(f1) == Lower(f2)
    ensures Lookup(reply, f1) == Lookup(reply, f2)
  {
  }
}
