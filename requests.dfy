/**
 * PendingRequest: a download request that could not start yet, its
 * equality (operator==) and the two searches the scheduler runs over the
 * queue of them.
 */
module Requests {

  /** The address of a receiving QObject. */
  type ReceiverId = nat

  /**
   * A `const char *` slot signature: the pointer and the characters it
   * points at. Two members with the same text may live at different
   * addresses.
   */
  datatype Member = Member(addr: nat, text: string)

  datatype PendingRequest = PendingRequest(url: string, receiver: ReceiverId, member: Member, cache: bool)

  /**
   * operator== on PendingRequest: url, receiver pointer, the member's
   * characters (strcmp, not the pointer) and the cache flag all match.
   */
  predicate SameRequest(a: PendingRequest, b: PendingRequest) {
    a.url == b.url && a.receiver == b.receiver && a.member.text == b.member.text && a.cache == b.cache
  }

  /** operator== is an equivalence relation. */
  lemma SameRequestIsEquivalence(a: PendingRequest, b: PendingRequest, c: PendingRequest)
    ensures SameRequest(a, a)
    ensures SameRequest(a, b) <==> SameRequest(b, a)
    ensures SameRequest(a, b) && SameRequest(b, c) ==> SameRequest(a, c)
  {
  }

  /**
   * operator== is coarser than identity of the records: it ignores where
   * the member string is stored, and nothing else.
   */
  lemma SameRequestIgnoresMemberAddress(a: PendingRequest, b: PendingRequest)
    ensures SameRequest(a, b) <==> a.(member := Member(0, a.member.text)) == b.(member := Member(0, b.member.text))
    ensures a == b ==> SameRequest(a, b)
  {
  }

  /**
   * QList::indexOf: the index of the first entry equal to `req` under
   * operator==, or -1 when there is none.
   */
  function IndexOf(list: seq<PendingRequest>, req: PendingRequest): (r: int)
    ensures -1 <= r < |list|
    ensures r == -1 <==> forall i :: 0 <= i < |list| ==> !SameRequest(list[i], req)
    ensures r != -1 ==> SameRequest(list[r], req) && forall i :: 0 <= i < r ==> !SameRequest(list[i], req)
  {
    if list == [] then -1
    else if SameRequest(list[0], req) then 0
    else
      var k := IndexOf(list[1..], req);
      assert forall i :: 1 <= i < |list| ==> list[i] == list[1..][i - 1];
      if k == -1 then -1 else k + 1
  }

  /** The index of the first entry whose url is `url`, or -1 when there is none. */
  function FirstUrlIndex(list: seq<PendingRequest>, url: string): (r: int)
    ensures -1 <= r < |list|
    ensures r == -1 <==> forall i :: 0 <= i < |list| ==> list[i].url != url
    ensures r != -1 ==> list[r].url == url && forall i :: 0 <= i < r ==> list[i].url != url
  {
    if list == [] then -1
    else if list[0].url == url then 0
    else
      var k := FirstUrlIndex(list[1..], url);
      assert forall i :: 1 <= i < |list| ==> list[i] == list[1..][i - 1];
      if k == -1 then -1 else k + 1
  }

  /** QList::removeAt: drops entry `i` and keeps the order of the rest. */
  function RemoveAt(list: seq<PendingRequest>, i: int): (r: seq<PendingRequest>)
    requires 0 <= i < |list|
    ensures |r| == |list| - 1
    ensures forall j :: 0 <= j < i ==> r[j] == list[j]
    ensures forall j :: i <= j < |r| ==> r[j] == list[j + 1]
  {
    list[..i] + list[i + 1..]
  }
}
