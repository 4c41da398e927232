/**
 The buffer handed to the Windows API that lists network adapters: sizes are 32-bit byte counts, the
 buffer is an array of whole elements, and the arithmetic in between is done on 64-bit words.
 */
module AdapterBuffers {
  import opened Options

  const WORD64: nat := 0x1_0000_0000_0000_0000
  const MAX_UINT32: nat := 0xFFFF_FFFF
  const KILOBYTE: nat := 1024
  const ATTEMPTS: nat := 10

  type UInt32 = n: nat | n <= MAX_UINT32
  type UInt64 = n: nat | n < WORD64

  function Add64(a: UInt64, b: UInt64): UInt64 {
    (a + b) % WORD64
  }

  function Mul64(a: UInt64, b: UInt64): UInt64 {
    (a * b) % WORD64
  }

  function Narrow32(a: UInt64): UInt32 {
    a % (MAX_UINT32 + 1)
  }

  /** How many elements of the given size hold `n` bytes. */
  function Elements(n: UInt32, size: UInt64): UInt64
    requires size > 0
  {
    if n % size != 0 then Add64(n / size, 1) else n / size
  }

  /** What a request for `n` bytes is rounded to; None when that is beyond what the API can be told. */
  function Rounded(n: UInt32, size: UInt64): Option<UInt32>
    requires size > 0
  {
    var bytes := Mul64(Elements(n, size), size);
    if bytes >= MAX_UINT32 then None else Some(Narrow32(bytes))
  }

  lemma Division(n: nat, size: nat)
    requires size > 0
    ensures n == n / size * size + n % size && n % size < size
    ensures n < size ==> n / size == 0
  {
  }

  lemma Monotone(a: nat, b: nat, c: nat)
    requires a <= b
    ensures a * c <= b * c
  {
  }

  function RoundUp(quotient: nat, remainder: nat): nat {
    if remainder != 0 then quotient + 1 else quotient
  }

  lemma RoundUpFits(quotient: nat, remainder: nat, size: nat)
    requires remainder < size
    ensures quotient * size + remainder <= RoundUp(quotient, remainder) * size < quotient * size + remainder + size
  {
  }

  lemma RoundUpIsLeast(quotient: nat, remainder: nat, size: nat, q: nat)
    requires remainder < size && quotient * size + remainder <= q * size
    ensures RoundUp(quotient, remainder) <= q
  {
    if q < quotient {
      Monotone(q + 1, quotient, size);
    } else if q == quotient {
      assert q * size == quotient * size;
    }
  }

  /** No 64-bit step wraps around: the count and the byte size are the mathematical ones. */
  lemma NothingOverflows(n: UInt32, size: UInt64)
    requires size > 0
    ensures Elements(n, size) == RoundUp(n / size, n % size)
    ensures Mul64(Elements(n, size), size) == Elements(n, size) * size
  {
    Division(n, size);
    RoundUpFits(n / size, n % size, size);
    QuotientBound(n, size);
    if n < size {
      Monotone(RoundUp(n / size, n % size), 1, size);
    }
  }

  lemma QuotientBound(n: nat, size: nat)
    requires size > 0
    ensures n / size <= n
  {
    Division(n, size);
    if n / size > n {
      Monotone(1, size, n / size);
    }
  }

  /** The rounded size is the least multiple of the element size that is not below the request. */
  lemma RoundedIsLeastMultiple(n: UInt32, size: UInt64)
    requires size > 0
    ensures var bytes := Elements(n, size) * size;
      && n <= bytes
      && (forall q: nat :: n <= q * size ==> bytes <= q * size)
      && Rounded(n, size) == (if bytes < 4294967295 then Some(bytes) else None)
  {
    NothingOverflows(n, size);
    Division(n, size);
    RoundUpFits(n / size, n % size, size);
    forall q: nat | n <= q * size ensures Elements(n, size) * size <= q * size {
      RoundUpIsLeast(n / size, n % size, size, q);
      Monotone(Elements(n, size), q, size);
    }
  }

  /** So many elements have room for so many bytes. */
  predicate Fits(bytes: nat, elements: nat, size: nat) {
    bytes <= elements * size
  }

  class Buffer<T(0)> {
    const sizeOf: UInt64
    var data: array<T>

    constructor (sizeOf: UInt64)
      requires sizeOf > 0
      ensures this.sizeOf == sizeOf && data.Length == 0
    {
      this.sizeOf := sizeOf;
      data := new T[0];
    }

    // The buffer grows to the rounded size and never shrinks.
    method ResizeBytes(n: UInt32) returns (size: Option<UInt32>)
      requires sizeOf > 0
      modifies `data
      ensures size == Rounded(n, sizeOf)
      ensures size == None ==> data == old(data)
      ensures size.Some? ==>
        && n <= size.value && Fits(size.value, data.Length, sizeOf)
        && data.Length == (if Elements(n, sizeOf) > old(data).Length then Elements(n, sizeOf) else old(data).Length)
        && old(data).Length <= data.Length && (n > 0 ==> data.Length > 0)
    {
      NothingOverflows(n, sizeOf);
      RoundedIsLeastMultiple(n, sizeOf);
      var newLen := n / sizeOf;
      if n % sizeOf != 0 {
        newLen := Add64(newLen, 1);
      }
      var newSize := Mul64(newLen, sizeOf);
      if newSize >= MAX_UINT32 {
        return None;
      }
      if newLen > data.Length {
        data := new T[newLen];
      }
      Monotone(newLen, data.Length, sizeOf);
      return Some(Narrow32(newSize));
    }
  }

  /** What the API answers: the list fits, it needs the given number of bytes, or it fails. */
  datatype Answer = Filled | Overflow(needed: UInt32) | Failure

  /** One call of the API: the byte count it was told and the elements that were allocated. */
  datatype ApiCall = ApiCall(bytes: UInt32, elements: nat)

  predicate Safe(c: ApiCall, sizeOf: nat) {
    c.elements > 0 && Fits(c.bytes, c.elements, sizeOf)
  }

  /** `next` was made because the API asked for more than `previous` offered. */
  predicate Follows(previous: ApiCall, answer: Answer, next: ApiCall) {
    answer.Overflow? && answer.needed <= next.bytes && previous.elements <= next.elements
  }

  datatype Outcome = Head | ApiFailed | SizeLimit | TooManyAttempts

  /** What call number `i` is told: the rounded first guess, or the rounded size that the call before asked for. */
  function Asked(answers: seq<Answer>, i: nat, sizeOf: UInt64): Option<UInt32>
    requires sizeOf > 0 && i <= |answers|
  {
    if i == 0 then Rounded(15 * 1024, sizeOf)
    else if answers[i - 1].Overflow? then Rounded(answers[i - 1].needed, sizeOf)
    else None
  }

  /** The calls so far were made one after the other, each told what it should be told. */
  ghost predicate AskedInTurn(answers: seq<Answer>, calls: seq<ApiCall>, sizeOf: UInt64)
    requires sizeOf > 0
  {
    |calls| <= |answers| && forall i :: 0 <= i < |calls| ==> Some(calls[i].bytes) == Asked(answers, i, sizeOf)
  }

  /** Each call gets a non-empty buffer that holds what the call was told, and buffers do not shrink. */
  ghost predicate AllSafe(calls: seq<ApiCall>, sizeOf: nat) {
    && (forall i :: 0 <= i < |calls| ==> Safe(calls[i], sizeOf))
    && (forall i :: 0 < i < |calls| ==> calls[i - 1].elements <= calls[i].elements)
  }

  lemma CallAdded(answers: seq<Answer>, calls: seq<ApiCall>, c: ApiCall, sizeOf: UInt64)
    requires sizeOf > 0 && |calls| < |answers| && AskedInTurn(answers, calls, sizeOf) && AllSafe(calls, sizeOf)
    requires Safe(c, sizeOf) && Some(c.bytes) == Asked(answers, |calls|, sizeOf)
    requires calls != [] ==> calls[|calls| - 1].elements <= c.elements
    ensures AskedInTurn(answers, calls + [c], sizeOf) && AllSafe(calls + [c], sizeOf)
  {
  }

  lemma RetriesOfferMore(answers: seq<Answer>, calls: seq<ApiCall>, sizeOf: UInt64, i: nat)
    requires sizeOf > 0 && AskedInTurn(answers, calls, sizeOf) && 0 < i < |calls|
    ensures answers[i - 1].Overflow? && answers[i - 1].needed <= calls[i].bytes
  {
    assert Some(calls[i].bytes) == Asked(answers, i, sizeOf);
    RoundedIsLeastMultiple(answers[i - 1].needed, sizeOf);
  }

  lemma AllRetriesOfferMore(answers: seq<Answer>, calls: seq<ApiCall>, sizeOf: UInt64)
    requires sizeOf > 0 && AskedInTurn(answers, calls, sizeOf) && AllSafe(calls, sizeOf)
    ensures forall i :: 0 < i < |calls| ==> Follows(calls[i - 1], answers[i - 1], calls[i])
  {
    forall i | 0 < i < |calls| ensures Follows(calls[i - 1], answers[i - 1], calls[i]) {
      RetriesOfferMore(answers, calls, sizeOf, i);
    }
  }

  /** Whatever sizes the API asks for, the calls are safe; the last answer, and whether its size fits, decide the outcome. */
  method GetAddrList<T(0)>(sizeOf: UInt64, answers: seq<Answer>) returns (outcome: Outcome, calls: seq<ApiCall>)
    requires sizeOf > 0 && |answers| == ATTEMPTS
    ensures |calls| <= 10 && AllSafe(calls, sizeOf) && AskedInTurn(answers, calls, sizeOf)
    ensures forall i :: 0 < i < |calls| ==> Follows(calls[i - 1], answers[i - 1], calls[i])
    ensures outcome == Head <==> calls != [] && answers[|calls| - 1].Filled?
    ensures outcome == ApiFailed <==> calls != [] && answers[|calls| - 1].Failure?
    ensures outcome == SizeLimit <==>
      (calls == [] || answers[|calls| - 1].Overflow?) && Asked(answers, |calls|, sizeOf) == None
    ensures outcome == TooManyAttempts <==> |calls| == 10 && Asked(answers, 10, sizeOf).Some?
  {
    calls := [];
    var buff := new Buffer<T>(sizeOf);
    var size := buff.ResizeBytes(15 * KILOBYTE);
    if size == None {
      return SizeLimit, calls;
    }
    for i := 0 to ATTEMPTS
      invariant buff.sizeOf == sizeOf && fresh(buff) && |calls| == i && buff.data.Length > 0
      invariant size.Some? && size == Asked(answers, i, sizeOf) && Fits(size.value, buff.data.Length, sizeOf)
      invariant AllSafe(calls, sizeOf) && AskedInTurn(answers, calls, sizeOf)
      invariant i > 0 ==> calls[i - 1].elements <= buff.data.Length
    {
      var call := ApiCall(size.value, buff.data.Length);
      CallAdded(answers, calls, call, sizeOf);
      calls := calls + [call];
      AllRetriesOfferMore(answers, calls, sizeOf);
      match answers[i]
      case Overflow(needed) =>
        size := buff.ResizeBytes(needed);
        if size == None {
          return SizeLimit, calls;
        }
      case Failure =>
        return ApiFailed, calls;
      case Filled =>
        return Head, calls;
    }
    AllRetriesOfferMore(answers, calls, sizeOf);
    return TooManyAttempts, calls;
  }
}
