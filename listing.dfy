/**
 * The text of `pwd-list`: `Object.keys(data).join(', ') || 'None'`, and the
 * reading back of that text into the list of channel ids it names.
 */
module Listing {
  const Separator := ", "

  /** `Array.prototype.join` with the separator ", ". */
  function Join(ks: seq<string>): (t: string)
    ensures ks == [] ==> t == ""
    ensures |ks| == 1 ==> t == ks[0]
  {
    if ks == [] then ""
    else if |ks| == 1 then ks[0]
    else ks[0] + Separator + Join(ks[1..])
  }

  /** Cut a text at every ", "; there is always at least one piece. */
  function Split(t: string): (parts: seq<string>)
    ensures |parts| >= 1
    decreases |t|
  {
    if |t| < 2 then [t]
    else if t[..2] == Separator then [""] + Split(t[2..])
    else
      var rest := Split(t[1..]);
      [[t[0]] + rest[0]] + rest[1..]
  }

  predicate CommaFree(k: string) {
    forall i :: 0 <= i < |k| ==> k[i] != ','
  }

  /**
   * Channel ids are Discord snowflakes: decimal numerals of at least 11
   * digits with no leading zero. Every such numeral is above 2^32, so it is
   * not an array index, and `Object.keys` lists it in insertion order.
   */
  predicate IsSnowflake(k: string) {
    |k| >= 11 && k[0] != '0' && forall i :: 0 <= i < |k| ==> '0' <= k[i] <= '9'
  }

  /** A joined text starts with the first key. */
  lemma JoinHead(ks: seq<string>)
    requires ks != [] && ks[0] != ""
    ensures |Join(ks)| > 0 && Join(ks)[0] == ks[0][0]
  {
  }

  lemma {:induction false} SplitSingle(k: string)
    requires CommaFree(k)
    ensures Split(k) == [k]
    decreases |k|
  {
    if |k| >= 2 {
      assert k[..2] != Separator by { assert k[0] != ','; }
      SplitSingle(k[1..]);
      assert [k[0]] + k[1..] == k;
    }
  }

  lemma {:induction false} SplitFront(k: string, rest: string)
    requires CommaFree(k)
    ensures Split(k + Separator + rest) == [k] + Split(rest)
    decreases |k|
  {
    var t := k + Separator + rest;
    if k == [] {
      assert t[..2] == Separator;
      assert t[2..] == rest;
    } else {
      assert t[..2] != Separator by { assert t[0] == k[0]; }
      assert t[1..] == k[1..] + Separator + rest;
      SplitFront(k[1..], rest);
      assert [k[0]] + k[1..] == k;
    }
  }

  /** Joining comma-free keys and splitting the result gives the keys back. */
  lemma {:induction false} SplitJoin(ks: seq<string>)
    requires ks != []
    requires forall i :: 0 <= i < |ks| ==> CommaFree(ks[i])
    ensures Split(Join(ks)) == ks
    decreases |ks|
  {
    if |ks| == 1 {
      SplitSingle(ks[0]);
    } else {
      SplitJoin(ks[1..]);
      SplitFront(ks[0], Join(ks[1..]));
      assert [ks[0]] + ks[1..] == ks;
    }
  }

  /** The `|| 'None'` fallback applies when the joined text is empty. */
  function ListText(ks: seq<string>): (t: string)
    ensures ks == [] ==> t == "None"
    ensures (forall i :: 0 <= i < |ks| ==> IsSnowflake(ks[i])) ==> (t == "None" <==> ks == [])
  {
    var joined := Join(ks);
    assert ks != [] && ks[0] != "" ==> |joined| > 0 && joined[0] == ks[0][0] by {
      if ks != [] && ks[0] != "" { JoinHead(ks); }
    }
    if joined == "" then "None" else joined
  }

  /** Read a `pwd-list` text back into the ids it names. */
  function ParseList(t: string): seq<string> {
    if t == "None" then [] else Split(t)
  }

  /** The listing names exactly the stored ids, in their order. */
  lemma ListRoundTrip(ks: seq<string>)
    requires forall i :: 0 <= i < |ks| ==> IsSnowflake(ks[i])
    ensures ParseList(ListText(ks)) == ks
  {
    if ks != [] {
      SplitJoin(ks);
    }
  }
}
