/**
 * The fixed-capacity running average `MovingAverage<T, N>`: a FIFO window of
 * at most N samples whose value is the mean of what it holds. Samples are
 * reals; the window is a sequence that AddData reassigns.
 */
module Averaging {

  /** Sum of the samples, accumulated front to back as AddData's loop does. */
  function Sum(s: seq<real>): (r: real)
  {
    if s == [] then 0.0 else Sum(s[..|s| - 1]) + s[|s| - 1]
  }

  /** Arithmetic mean; an empty window reads as 0. */
  function Mean(s: seq<real>): (m: real)
  {
    if s == [] then 0.0 else Sum(s) / (|s| as real)
  }

  /** The samples a window of capacity n holds once the samples h have been added in order. */
  function Window(h: seq<real>, n: nat): (w: seq<real>)
    ensures |w| == if |h| < n then |h| else n
    ensures w == h[|h| - |w|..]
  {
    if |h| <= n then h else h[|h| - n..]
  }

  /** Adding one sample to a window either appends it (not yet full) or evicts the oldest sample and appends it (full). */
  lemma {:induction false} WindowStep(h: seq<real>, n: nat, x: real)
    requires n > 0
    ensures Window(h + [x], n) ==
      if |Window(h, n)| < n then Window(h, n) + [x] else Window(h, n)[1..] + [x]
  {
    if |h| >= n {
      var w := h[|h| - n..];
      assert Window(h, n) == w;
      assert (h + [x])[|h| + 1 - n..] == w[1..] + [x];
    }
  }

  /** While the window is not full, the new sample is appended to it. */
  lemma AppendStep(h: seq<real>, n: nat, x: real)
    requires n > 0 && |h| < n
    ensures Window(h + [x], n) == Window(h, n) + [x]
  {
    WindowStep(h, n, x);
  }

  /** Once the window is full, the oldest sample is evicted and the new one appended. */
  lemma EvictStep(h: seq<real>, n: nat, x: real)
    requires n > 0 && |h| >= n
    ensures Window(h + [x], n) == Window(h, n)[1..] + [x]
  {
    WindowStep(h, n, x);
  }

  /** A window filled with one constant has that constant as its mean. */
  lemma {:induction false} MeanOfConstant(s: seq<real>, c: real)
    requires s != []
    requires forall i :: 0 <= i < |s| ==> s[i] == c
    ensures Mean(s) == c
  {
    SumOfConstant(s, c);
  }

  lemma {:induction false} SumOfConstant(s: seq<real>, c: real)
    requires forall i :: 0 <= i < |s| ==> s[i] == c
    ensures Sum(s) == (|s| as real) * c
  {
    if s != [] {
      SumOfConstant(s[..|s| - 1], c);
    }
  }

  /** The summing loop of AddData. */
  method SumOf(s: seq<real>) returns (sum: real)
    ensures sum == Sum(s)
  {
    sum := 0.0;
    for i := 0 to |s|
      invariant sum == Sum(s[..i])
    {
      assert s[..i + 1][..i] == s[..i];
      sum := sum + s[i];
    }
    assert s[..|s|] == s;
  }

  /** The not-yet-full branch of AddData: the sum divided by the number of samples held. */
  method AverageOf(s: seq<real>) returns (v: real)
    requires s != []
    ensures v == Mean(s)
  {
    var sum := SumOf(s);
    v := sum / (|s| as real);
  }

  /** The full branch of AddData: the sum times the precomputed reciprocal of the capacity. */
  method ScaledSumOf(s: seq<real>, n: nat) returns (v: real)
    requires n > 0 && |s| == n
    ensures v == Mean(s)
  {
    var sum := SumOf(s);
    var reciprocal := 1.0 / (n as real);
    v := sum * reciprocal;
  }

  class MovingAverage {
    /** The window capacity, the template argument N. */
    const N: nat
    /** The window, oldest sample first. */
    var dataList: seq<real>
    var value: real
    /** Every sample ever given to this window, oldest first, the constructor's initial sample included. */
    ghost var History: seq<real>

    /** The window holds the last N samples added. */
    ghost predicate WindowValid()
      reads this
    {
      && N > 0 && N % 2 == 1
      && dataList == Window(History, N)
    }

    /** ... and the value is their mean. */
    ghost predicate Valid()
      reads this
    {
      WindowValid() && value == Mean(dataList)
    }

    /**
     * The default constructor: an empty window. N must be positive and odd.
     * The value field has no initialiser; the instances that exist are
     * globals, whose storage starts at zero.
     */
    constructor (n: nat)
      requires n > 0 && n % 2 == 1
      ensures Valid() && N == n
      ensures dataList == [] && value == 0.0 && History == []
    {
      N := n;
      dataList := [];
      value := 0.0;
      History := [];
    }

    /** A window that starts with one sample, which is also its value. */
    constructor WithInitial(n: nat, initialData: real)
      requires n > 0 && n % 2 == 1
      ensures Valid() && N == n
      ensures dataList == [initialData] && value == initialData && History == [initialData]
    {
      N := n;
      dataList := [initialData];
      value := initialData;
      History := [initialData];
      assert [initialData][..0] == [];
      assert Sum([initialData]) == initialData;
    }

    /** Needs only the window invariant: the value before the call plays no part in the value after it. */
    method AddData(data: real)
      requires WindowValid()
      modifies this
      ensures Valid()
      ensures History == old(History) + [data]
      ensures |old(dataList)| < N ==>
        dataList == old(dataList) + [data] && value == Sum(dataList) / (|dataList| as real)
      ensures |old(dataList)| >= N ==>
        dataList == old(dataList)[1..] + [data] && value == Sum(dataList) * (1.0 / (N as real))
      ensures |dataList| == if |old(dataList)| < N then |old(dataList)| + 1 else N
      ensures dataList[|dataList| - 1] == data
    {
      ghost var h := History + [data];
      if |dataList| < N {
        AppendStep(History, N, data);
        dataList := dataList + [data];
        assert dataList == Window(h, N);
        value := AverageOf(dataList);
      } else {
        EvictStep(History, N, data);
        dataList := dataList[1..] + [data];
        assert dataList == Window(h, N);
        value := ScaledSumOf(dataList, N);
      }
      History := h;
    }

    function GetValue(): (v: real)
      reads this
      requires Valid()
      ensures v == Mean(Window(History, N))
      ensures |History| >= N ==> v == Sum(History[|History| - N..]) / (N as real)
    {
      value
    }

    function GetDataList(): (l: seq<real>)
      reads this
      requires Valid()
      ensures |l| <= N
      ensures l == Window(History, N)
      ensures History != [] ==> l != [] && l[|l| - 1] == History[|History| - 1]
    {
      dataList
    }
  }
}
