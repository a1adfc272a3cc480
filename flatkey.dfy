/** The flat string form "<id>-<pid>-<cid>-<op>" under which the editor keys
    its parameter table (src/context.tsx, `encodeKey` and `decodeKey`), and
    the structured key the rest of the model uses in its place. */
module FlatKey {
  import opened Common

  /** A key of the parameter table, with its four parts held apart. */
  datatype Key = Key(id: string, pid: PatchId, cid: ChannelId, op: OperatorId)

  /** What `decodeKey` returns: the id part as it stands and the three index
      parts through `parseInt`, None standing for NaN. */
  datatype Decoded = Decoded(id: string, pid: Option<int>, cid: Option<int>, op: Option<int>)

  function DigitChar(d: int): char
    requires 0 <= d < 10
  {
    "0123456789"[d]
  }

  predicate IsDigit(c: char) { '0' <= c <= '9' }

  /** The decimal text `${n}` of a one-digit index. */
  function IndexText(n: int): (r: string)
    requires 0 <= n < 10
    ensures |r| == 1 && IsDigit(r[0])
  {
    [DigitChar(n)]
  }

  /** The string a key is stored under. */
  function KeyString(k: Key): string
  {
    k.id + "-" + IndexText(k.pid) + "-" + IndexText(k.cid) + "-" + IndexText(k.op)
  }

  /** String.prototype.split with a one-character separator. */
  function Split(s: string, sep: char): (r: seq<string>)
    ensures |r| >= 1
    ensures forall i :: 0 <= i < |r| ==> sep !in r[i]
    ensures r[0] <= s && (|r[0]| < |s| ==> s[|r[0]|] == sep)
    decreases |s|
  {
    if |s| == 0 then [""]
    else
      var rest := Split(s[1..], sep);
      if s[0] == sep then [""] + rest
      else [[s[0]] + rest[0]] + rest[1..]
  }

  /** The value of the leading run of decimal digits of `s`. */
  function DigitsValue(s: string, acc: nat): nat
    decreases |s|
  {
    if |s| == 0 || !IsDigit(s[0]) then acc
    else DigitsValue(s[1..], acc * 10 + (s[0] as int - '0' as int))
  }

  /** parseInt(s, 10) on a string that starts with a digit or with nothing
      that parseInt skips: the value of the leading digits, NaN without one. */
  function ParseInt(s: string): Option<int>
  {
    if |s| > 0 && IsDigit(s[0]) then Some(DigitsValue(s, 0)) else None
  }

  /** parseInt of a missing array element (`undefined`) is NaN. */
  function ParsePart(parts: seq<string>, i: nat): Option<int>
  {
    if i < |parts| then ParseInt(parts[i]) else None
  }

  /** decodeKey: split at every '-', take the id and parse the three indices. */
  function DecodeKey(s: string): (d: Decoded)
    ensures '-' !in d.id && d.id <= s && (|d.id| < |s| ==> s[|d.id|] == '-')
  {
    var parts := Split(s, '-');
    Decoded(parts[0], ParsePart(parts, 1), ParsePart(parts, 2), ParsePart(parts, 3))
  }

  /** Splitting a piece free of the separator, followed by the separator, peels that piece off. */
  lemma {:induction false} SplitPiece(x: string, y: string, sep: char)
    requires sep !in x
    ensures Split(x + [sep] + y, sep) == [x] + Split(y, sep)
    decreases |x|
  {
    if |x| == 0 {
      assert x + [sep] + y == [sep] + y;
      assert ([sep] + y)[1..] == y;
    } else {
      var s := x + [sep] + y;
      assert s[0] == x[0];
      assert s[1..] == x[1..] + [sep] + y;
      SplitPiece(x[1..], y, sep);
      assert [x[0]] + x[1..] == x;
    }
  }

  lemma {:induction false} SplitPlain(x: string, sep: char)
    requires sep !in x
    ensures Split(x, sep) == [x]
    decreases |x|
  {
    if |x| > 0 {
      SplitPlain(x[1..], sep);
      assert [x[0]] + x[1..] == x;
    }
  }

  /** Decoding the stored string of a key gives back its id and its indices,
      provided the id has no '-' in it. */
  lemma DecodeKeyString(k: Key)
    requires '-' !in k.id
    ensures DecodeKey(KeyString(k)) == Decoded(k.id, Some(k.pid), Some(k.cid), Some(k.op))
  {
    var a, b, c := IndexText(k.pid), IndexText(k.cid), IndexText(k.op);
    assert KeyString(k) == k.id + ['-'] + (a + ['-'] + (b + ['-'] + c));
    SplitPiece(k.id, a + ['-'] + (b + ['-'] + c), '-');
    SplitPiece(a, b + ['-'] + c, '-');
    SplitPiece(b, c, '-');
    SplitPlain(c, '-');
    var parts := Split(KeyString(k), '-');
    assert parts == [k.id, a, b, c];
    assert DigitsValue(a[1..], k.pid) == k.pid;
    assert DigitsValue(b[1..], k.cid) == k.cid;
    assert DigitsValue(c[1..], k.op) == k.op;
  }

  /** The stored string determines the key. */
  lemma KeyStringInjective(k: Key, k': Key)
    requires '-' !in k.id && '-' !in k'.id
    requires KeyString(k) == KeyString(k')
    ensures k == k'
  {
    DecodeKeyString(k);
    DecodeKeyString(k');
  }
}
