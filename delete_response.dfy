/**
 * Deleting an HTTP response from the client's response cache.  Once the
 * backend has deleted a response, the cached response list of the request it
 * belongs to is replaced by that list without the deleted response; a list
 * that was never fetched counts as empty.  The backend call itself is not
 * modelled: the deleted response is the method's input.
 */
module DeleteResponse {

  /** The two fields of a response the cache update reads. */
  datatype HttpResponse = HttpResponse(id: string, requestId: string)

  /** `responses.filter(r => r.id !== responseId)`. */
  function WithoutResponse(responses: seq<HttpResponse>, responseId: string): (r: seq<HttpResponse>)
    ensures |r| <= |responses|
    ensures forall x :: x in r <==> x in responses && x.id != responseId
  {
    if responses == [] then []
    else if responses[0].id != responseId then [responses[0]] + WithoutResponse(responses[1..], responseId)
    else WithoutResponse(responses[1..], responseId)
  }

  /** `sub` is `s` with some entries dropped and the rest in their order. */
  predicate Subsequence<T(==)>(sub: seq<T>, s: seq<T>) {
    if sub == [] then true
    else if s == [] then false
    else if sub[0] == s[0] then Subsequence(sub[1..], s[1..])
    else Subsequence(sub, s[1..])
  }

  /** The remaining responses keep the order they had in the list. */
  lemma {:induction false} KeepsOrder(responses: seq<HttpResponse>, responseId: string)
    ensures Subsequence(WithoutResponse(responses, responseId), responses)
  {
    if responses != [] {
      KeepsOrder(responses[1..], responseId);
      var rest := WithoutResponse(responses[1..], responseId);
      if responses[0].id != responseId {
        assert WithoutResponse(responses, responseId) == [responses[0]] + rest;
        assert ([responses[0]] + rest)[1..] == rest;
      }
    }
  }

  /** Every response other than the deleted one stays, as often as it was there; the deleted one is gone. */
  lemma {:induction false} KeepsCounts(responses: seq<HttpResponse>, responseId: string, x: HttpResponse)
    ensures x.id != responseId ==> multiset(WithoutResponse(responses, responseId))[x] == multiset(responses)[x]
    ensures x.id == responseId ==> multiset(WithoutResponse(responses, responseId))[x] == 0
  {
    if responses != [] {
      KeepsCounts(responses[1..], responseId, x);
      assert responses == [responses[0]] + responses[1..];
    }
  }

  /** The list keeps its length exactly when it held no response with the deleted id. */
  lemma {:induction false} LengthKeptIffAbsent(responses: seq<HttpResponse>, responseId: string)
    ensures |WithoutResponse(responses, responseId)| == |responses| <==> forall i :: 0 <= i < |responses| ==> responses[i].id != responseId
  {
    if responses != [] {
      LengthKeptIffAbsent(responses[1..], responseId);
      if responses[0].id != responseId {
        forall i | 0 < i < |responses|
          ensures responses[i] == responses[1..][i - 1]
        {
        }
      } else {
        assert |WithoutResponse(responses[1..], responseId)| <= |responses[1..]|;
      }
    }
  }

  /** Deleting a response that is not in the list leaves the list as it was. */
  lemma {:induction false} AbsentUnchanged(responses: seq<HttpResponse>, responseId: string)
    requires forall i :: 0 <= i < |responses| ==> responses[i].id != responseId
    ensures WithoutResponse(responses, responseId) == responses
  {
    if responses != [] {
      AbsentUnchanged(responses[1..], responseId);
      assert [responses[0]] + responses[1..] == responses;
    }
  }

  /** Deleting the same response twice is the same as deleting it once. */
  lemma Idempotent(responses: seq<HttpResponse>, responseId: string)
    ensures WithoutResponse(WithoutResponse(responses, responseId), responseId) == WithoutResponse(responses, responseId)
  {
    var once := WithoutResponse(responses, responseId);
    forall i | 0 <= i < |once|
      ensures once[i].id != responseId
    {
      assert once[i] in once;
    }
    AbsentUnchanged(once, responseId);
  }

  /** The query cache's response lists, keyed by request id. */
  class ResponsesCache {
    var lists: map<string, seq<HttpResponse>>

    constructor(lists: map<string, seq<HttpResponse>>)
      ensures this.lists == lists
    {
      this.lists := lists;
    }

    /** The cached list of a request; one never fetched reads as empty. */
    function ListOf(requestId: string): (r: seq<HttpResponse>)
      reads this
      ensures requestId in lists ==> r == lists[requestId]
      ensures requestId !in lists ==> r == []
    {
      if requestId in lists then lists[requestId] else []
    }

    /**
     * After the backend deleted `deleted`, the list of its request loses
     * every response with its id; the lists of other requests are untouched.
     */
    method OnDeleteSuccess(deleted: HttpResponse)
      modifies this
      ensures lists == old(lists)[deleted.requestId := WithoutResponse(if deleted.requestId in old(lists) then old(lists)[deleted.requestId] else [], deleted.id)]
      ensures lists.Keys == old(lists).Keys + {deleted.requestId}
      ensures forall key :: key in old(lists) && key != deleted.requestId ==> lists[key] == old(lists)[key]
      ensures forall x :: x in lists[deleted.requestId] ==> x.id != deleted.id
    {
      var responses := ListOf(deleted.requestId);
      lists := lists[deleted.requestId := WithoutResponse(responses, deleted.id)];
    }
  }
}
