/** The pieces of JavaScript's value model that the browser and server code
    relies on: parsed JSON values and their truthiness, property reads,
    decimal rendering of numbers, and the string tests the code uses
    (`startsWith`, `includes`, splitting a URL path on '/'). */
module Js {
  import opened Wrappers

  /** A parsed JSON value. JSON has no `undefined`; an absent property is a
      `None` from `Get`. */
  datatype JsValue =
    | JNull
    | JBool(b: bool)
    | JNum(n: real)
    | JStr(s: string)
    | JArr(items: seq<JsValue>)
    | JObj(fields: map<string, JsValue>)

  /** JavaScript truthiness: `null`, `false`, `0` and `""` are falsy; arrays
      and objects are always truthy. */
  predicate Truthy(v: JsValue)
  {
    match v
    case JNull => false
    case JBool(b) => b
    case JNum(n) => n != 0.0
    case JStr(s) => s != ""
    case JArr(_) => true
    case JObj(_) => true
  }

  /** Truthiness of a value that may be `undefined`. */
  predicate TruthyOpt(v: Option<JsValue>)
  {
    v.Some? && Truthy(v.value)
  }

  /** Reading property `key` of a non-null value, for the keys this code
      reads (`message`, `error`, `data`, `success`, `headers`, `method`,
      `withAuth`, `timeout`, `body`): only objects carry them; on a string,
      number, boolean or array, whose prototypes have none of these keys,
      the read is `undefined`. Other keys such as `length` are never read.
      (Reading a property of `null` throws; callers handle it.) */
  function Get(v: JsValue, key: string): (r: Option<JsValue>)
    ensures r.Some? ==> v.JObj? && key in v.fields && r.value == v.fields[key]
    ensures v.JObj? && key in v.fields ==> r.Some?
  {
    if v.JObj? && key in v.fields then Some(v.fields[key]) else None
  }

  /** `a || b` where `a` may be undefined. */
  function Or(a: Option<JsValue>, b: JsValue): (r: JsValue)
    ensures TruthyOpt(a) ==> r == a.value
    ensures !TruthyOpt(a) ==> r == b
  {
    if TruthyOpt(a) then a.value else b
  }

  /** The own properties that spreading a value (`{ ...v }`) contributes:
      an object's fields; nothing for `undefined`, `null`, booleans and
      numbers. */
  function Spread(v: Option<JsValue>): (m: map<string, JsValue>)
    ensures v.Some? && v.value.JObj? ==> m == v.value.fields
    ensures !(v.Some? && v.value.JObj?) ==> m == map[]
  {
    if v.Some? && v.value.JObj? then v.value.fields else map[]
  }

  // ---------------------------------------------------------------------
  // Decimal text of non-negative integers (Number.prototype.toString and
  // template literals on whole numbers)
  // ---------------------------------------------------------------------

  predicate IsDigit(c: char)
  {
    '0' <= c <= '9'
  }

  predicate AllDigits(s: string)
  {
    forall i :: 0 <= i < |s| ==> IsDigit(s[i])
  }

  function DigitChar(d: nat): (c: char)
    requires d < 10
    ensures IsDigit(c)
  {
    (48 + d) as char
  }

  function DigitValue(c: char): (d: nat)
    requires IsDigit(c)
    ensures d < 10
  {
    c as int - 48
  }

  /** The decimal text of `n`, without leading zeros. */
  function Decimal(n: nat): (s: string)
    ensures 1 <= |s| && AllDigits(s)
    ensures n < 10 ==> |s| == 1
    ensures 10 <= n < 100 ==> |s| == 2
    ensures n >= 10 ==> s[0] != '0'
    decreases n
  {
    if n < 10 then [DigitChar(n)] else Decimal(n / 10) + [DigitChar(n % 10)]
  }

  /** The number a string of digits denotes (what `Number(s)` gives for it). */
  function DecimalValue(s: string): nat
    requires AllDigits(s)
  {
    if s == [] then 0 else 10 * DecimalValue(s[..|s| - 1]) + DigitValue(s[|s| - 1])
  }

  /** Reading back the decimal text of a number gives that number. */
  lemma {:induction false} DecimalRoundTrip(n: nat)
    ensures DecimalValue(Decimal(n)) == n
  {
    var s := Decimal(n);
    if n >= 10 {
      DecimalRoundTrip(n / 10);
      assert s[..|s| - 1] == Decimal(n / 10);
      assert DigitValue(s[|s| - 1]) == n % 10;
    } else {
      assert s[..|s| - 1] == [];
    }
  }

  // ---------------------------------------------------------------------
  // String tests
  // ---------------------------------------------------------------------

  /** `s.startsWith(p)` */
  predicate StartsWith(s: string, p: string)
  {
    |p| <= |s| && s[..|p|] == p
  }

  /** `s.includes(sub)` */
  predicate Includes(s: string, sub: string)
    decreases |s|
  {
    if |s| < |sub| then false else s[..|sub|] == sub || Includes(s[1..], sub)
  }

  /** `contentType && contentType.includes('application/json')`: the
      response's content type is present and mentions JSON. */
  predicate IsJson(contentType: Option<string>)
  {
    contentType.Some? && Includes(contentType.value, "application/json")
  }

  /** `s.split('/')`: the pieces between slashes, in order. */
  function SplitSlash(s: string): (r: seq<string>)
    ensures |r| >= 1
  {
    if s == [] then [""]
    else
      var rest := SplitSlash(s[1..]);
      if s[0] == '/' then [""] + rest else [[s[0]] + rest[0]] + rest[1..]
  }

  /** A piece without a slash, followed by a slash, is split off whole. */
  lemma {:induction false} SplitSlashPiece(a: string, b: string)
    requires NoSlash(a)
    ensures SplitSlash(a + "/" + b) == [a] + SplitSlash(b)
  {
    if a == [] {
      assert a + "/" + b == "/" + b;
      assert ("/" + b)[1..] == b;
    } else {
      assert (a + "/" + b)[1..] == a[1..] + "/" + b;
      SplitSlashPiece(a[1..], b);
      assert [a[0]] + a[1..] == a;
    }
  }

  /** A string without slashes is a single piece. */
  lemma {:induction false} SplitSlashWhole(a: string)
    requires NoSlash(a)
    ensures SplitSlash(a) == [a]
  {
    if a != [] {
      SplitSlashWhole(a[1..]);
      assert [a[0]] + a[1..] == a;
    }
  }

  predicate NoSlash(s: string)
  {
    forall i :: 0 <= i < |s| ==> s[i] != '/'
  }

  /** A character that a URL carries unchanged and that never starts a
      query, a fragment, a percent escape or a dot segment: an ASCII
      letter or digit, '-' or '_'. */
  predicate IsUrlSafe(c: char)
  {
    'a' <= c <= 'z' || 'A' <= c <= 'Z' || '0' <= c <= '9' || c == '-' || c == '_'
  }

  /** A non-empty path segment made only of URL-safe characters, such as
      the hexadecimal text of a MongoDB ObjectId. */
  predicate UrlSafe(s: string)
  {
    s != "" && forall i :: 0 <= i < |s| ==> IsUrlSafe(s[i])
  }

  /** `segments.join('/')` */
  function JoinSlash(segments: seq<string>): string
    requires |segments| >= 1
  {
    if |segments| == 1 then segments[0] else segments[0] + "/" + JoinSlash(segments[1..])
  }

  /** Splitting on '/' undoes joining with '/' when no segment holds a
      slash. */
  lemma {:induction false} SplitJoin(segments: seq<string>)
    requires |segments| >= 1
    requires forall k :: 0 <= k < |segments| ==> NoSlash(segments[k])
    ensures SplitSlash(JoinSlash(segments)) == segments
  {
    if |segments| == 1 {
      SplitSlashWhole(segments[0]);
    } else {
      SplitJoin(segments[1..]);
      SplitSlashPiece(segments[0], JoinSlash(segments[1..]));
      assert [segments[0]] + segments[1..] == segments;
    }
  }

  /** Joining the pieces of a split with '/' gives back the string, and no
      piece holds a slash. */
  lemma {:induction false} JoinSplit(s: string)
    ensures JoinSlash(SplitSlash(s)) == s
    ensures forall k :: 0 <= k < |SplitSlash(s)| ==> NoSlash(SplitSlash(s)[k])
  {
    if s != [] {
      var rest := SplitSlash(s[1..]);
      JoinSplit(s[1..]);
      if s[0] == '/' {
        assert ([""] + rest)[1..] == rest;
        assert s == "/" + s[1..];
      } else {
        var r := SplitSlash(s);
        assert r == [[s[0]] + rest[0]] + rest[1..];
        if |rest| == 1 {
          assert JoinSlash(r) == [s[0]] + rest[0];
        } else {
          assert r[1..] == rest[1..];
          assert JoinSlash(rest) == rest[0] + "/" + JoinSlash(rest[1..]);
          assert JoinSlash(r) == [s[0]] + rest[0] + "/" + JoinSlash(rest[1..]);
        }
        assert s == [s[0]] + s[1..];
        forall k | 0 <= k < |r|
          ensures NoSlash(r[k])
        {
          if k > 0 {
            assert r[k] == rest[k];
          }
        }
      }
    }
  }
}
