/** The bytes that scopedWorkflowID hashes (api/grpc/unary_interceptors.go): user, method, payload and key
    joined by zero bytes. */
module Idempotency {
  newtype Byte = x: int | 0 <= x < 256

  datatype Request = Request(user: seq<Byte>, rpc: seq<Byte>, payload: seq<Byte>, key: seq<Byte>)

  predicate ZeroFree(s: seq<Byte>) { forall i :: 0 <= i < |s| ==> s[i] != 0 }

  /** User ids, method names and UUID keys are text without zero bytes; payloads are arbitrary. */
  predicate Scoped(r: Request) { ZeroFree(r.user) && ZeroFree(r.rpc) && ZeroFree(r.key) }

  function Preimage(r: Request): seq<Byte> {
    r.user + [0] + r.rpc + [0] + r.payload + [0] + r.key
  }

  /** sha256.New() as far as its input goes. */
  class Hash {
    var written: seq<Byte>

    constructor ()
      ensures written == []
    {
      written := [];
    }

    method Write(p: seq<Byte>)
      modifies this
      ensures written == old(written) + p
    {
      written := written + p;
    }
  }

  /** scopedWorkflowID up to the digest. */
  method WriteScoped(r: Request) returns (h: Hash)
    ensures fresh(h) && h.written == Preimage(r)
  {
    h := new Hash();
    h.Write(r.user);
    h.Write([0]);
    h.Write(r.rpc);
    h.Write([0]);
    h.Write(r.payload);
    h.Write([0]);
    h.Write(r.key);
  }

  /** Reads up to the first zero byte. */
  function Head(s: seq<Byte>): seq<Byte> {
    if s == [] || s[0] == 0 then [] else [s[0]] + Head(s[1..])
  }

  /** Reads back to the last zero byte. */
  function Tail(s: seq<Byte>): seq<Byte> {
    if s == [] || s[|s| - 1] == 0 then [] else Tail(s[..|s| - 1]) + [s[|s| - 1]]
  }

  function Drop(s: seq<Byte>, n: nat): seq<Byte> { if n <= |s| then s[n..] else [] }

  /** Takes the four parts back out of the joined bytes. */
  function Split(s: seq<Byte>): Request {
    var user := Head(s);
    var afterUser := Drop(s, |user| + 1);
    var rpc := Head(afterUser);
    var rest := Drop(afterUser, |rpc| + 1);
    var key := Tail(rest);
    Request(user, rpc, if |key| + 1 <= |rest| then rest[..|rest| - |key| - 1] else [], key)
  }

  lemma {:induction false} HeadStopsAtZero(s: seq<Byte>, rest: seq<Byte>)
    requires ZeroFree(s)
    ensures Head(s + [0] + rest) == s
    decreases |s|
  {
    if s != [] {
      assert (s + [0] + rest)[1..] == s[1..] + [0] + rest;
      HeadStopsAtZero(s[1..], rest);
    }
  }

  lemma {:induction false} TailStopsAtZero(front: seq<Byte>, s: seq<Byte>)
    requires ZeroFree(s)
    ensures Tail(front + [0] + s) == s
    decreases |s|
  {
    if s == [] {
      assert front + [0] + s == front + [0];
    } else {
      var joined := front + [0] + s;
      assert joined[..|joined| - 1] == front + [0] + s[..|s| - 1];
      TailStopsAtZero(front, s[..|s| - 1]);
      assert s[..|s| - 1] + [s[|s| - 1]] == s;
    }
  }

  /** The first two zero bytes and the last one recover all four parts, whatever the payload holds. */
  lemma SplitRecoversParts(r: Request)
    requires Scoped(r)
    ensures Split(Preimage(r)) == r
  {
    var afterMethod := r.payload + [0] + r.key;
    var afterUser := r.rpc + [0] + afterMethod;
    assert Preimage(r) == r.user + [0] + afterUser;
    HeadStopsAtZero(r.user, afterUser);
    assert Drop(Preimage(r), |r.user| + 1) == afterUser;
    HeadStopsAtZero(r.rpc, afterMethod);
    assert Drop(afterUser, |r.rpc| + 1) == afterMethod;
    TailStopsAtZero(r.payload, r.key);
    assert afterMethod[..|r.payload|] == r.payload;
  }

  /** Two requests share a preimage only if they are the same request of the same caller. */
  lemma PreimageIsInjective(r: Request, r': Request)
    requires Scoped(r) && Scoped(r') && Preimage(r) == Preimage(r')
    ensures r == r'
  {
    SplitRecoversParts(r);
    SplitRecoversParts(r');
  }
}
