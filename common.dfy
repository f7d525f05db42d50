/** Values shared by every version of the photobooth server: bytes, optional
    values, the two modes the handlers assign, the tri-state preview flag, the
    JPEG start-of-image marker and the handful of Python string operations the
    handlers rely on (lower(), endswith(), `in`, strip(), os.path.basename and
    os.path.join). */
module Common {

  newtype byte = x: int | 0 <= x < 256

  type Bytes = seq<byte>

  datatype Option<T> = None | Some(value: T)

  /** `mode` only ever holds the strings "live" and "captured". */
  datatype Mode = Live | Captured

  /** `supports_preview`: None (not probed yet), True or False. */
  datatype Preview = Unknown | Supported | Unsupported

  /** The globals of a server that its handlers set besides the preview
      pump and the preview frame: the selected port, the last capture, the
      viewer count and the last error. */
  datatype Session = Session(selectedPort: Option<string>, capturedImage: Option<Bytes>,
                             capturedFilename: Option<string>, viewers: nat, lastError: Option<string>)

  /** Python truthiness of an optional byte string: neither None nor b''. */
  predicate PresentBytes(b: Option<Bytes>) {
    b.Some? && |b.value| > 0
  }

  /** Python truthiness of an optional str: neither None nor ''. */
  predicate PresentText(s: Option<string>) {
    s.Some? && |s.value| > 0
  }

  /** The JPEG start-of-image marker FF D8 (Table B.1, Annex B of ITU-T T.81). */
  const Soi: Bytes := [0xFF, 0xD8]

  /** `b[:2] == b'\xff\xd8'`: a slice of a shorter payload never equals the marker. */
  predicate StartsWithSoi(b: Bytes) {
    |b| >= 2 && b[..2] == Soi
  }

  // ---------------------------------------------------------------- text

  /** str.lower() on the ASCII range; other characters are left as they are. */
  function LowerChar(c: char): (r: char)
    ensures 'A' <= c <= 'Z' ==> r as int == c as int + 32
    ensures !('A' <= c <= 'Z') ==> r == c
  {
    if 'A' <= c <= 'Z' then (c as int + 32) as char else c
  }

  function Lower(s: string): (r: string)
    ensures |r| == |s|
    ensures forall i | 0 <= i < |s| :: r[i] == LowerChar(s[i])
  {
    seq(|s|, i requires 0 <= i < |s| => LowerChar(s[i]))
  }

  predicate EndsWith(s: string, suffix: string) {
    |suffix| <= |s| && s[|s| - |suffix|..] == suffix
  }

  /** A suffix of a suffix is a suffix. */
  lemma EndsWithOfSuffix(s: string, mid: string, suffix: string)
    requires EndsWith(s, mid) && EndsWith(mid, suffix)
    ensures EndsWith(s, suffix)
  {
    assert s[|s| - |suffix|..] == s[|s| - |mid|..][|mid| - |suffix|..];
  }

  predicate HasAt(s: string, sub: string, i: int) {
    0 <= i && i + |sub| <= |s| && s[i..i + |sub|] == sub
  }

  /** Python's `sub in s` for strings. */
  predicate Contains(s: string, sub: string) {
    exists i | 0 <= i <= |s| :: HasAt(s, sub, i)
  }

  /** The characters str.strip() removes when called without arguments: those
      for which str.isspace() holds. */
  predicate IsSpace(c: char) {
    ('\t' <= c <= '\r') || ('\U{1c}' <= c <= ' ') || c == '\U{85}' || c == '\U{a0}' || c == '\U{1680}'
    || ('\U{2000}' <= c <= '\U{200a}') || c == '\U{2028}' || c == '\U{2029}' || c == '\U{202f}'
    || c == '\U{205f}' || c == '\U{3000}'
  }

  /** Where the run of whitespace that starts at `i` ends. */
  function SpaceEnd(s: string, i: nat): (a: nat)
    requires i <= |s|
    ensures i <= a <= |s|
    ensures forall j | i <= j < a :: IsSpace(s[j])
    ensures a == |s| || !IsSpace(s[a])
    decreases |s| - i
  {
    if i == |s| || !IsSpace(s[i]) then i else SpaceEnd(s, i + 1)
  }

  /** Where the run of whitespace that ends at `j` starts, looking back no
      further than `lo`. */
  function SpaceStart(s: string, lo: nat, j: nat): (b: nat)
    requires lo <= j <= |s|
    ensures lo <= b <= j
    ensures forall i | b <= i < j :: IsSpace(s[i])
    ensures b == lo || !IsSpace(s[b - 1])
    decreases j
  {
    if j == lo || !IsSpace(s[j - 1]) then j else SpaceStart(s, lo, j - 1)
  }

  /** `r` occurs in `s` at index `k`, and everything in `s` before and
      after that occurrence is whitespace. */
  predicate Surrounds(s: string, r: string, k: int) {
    HasAt(s, r, k)
    && (forall i | 0 <= i < k :: IsSpace(s[i]))
    && (forall i | k + |r| <= i < |s| :: IsSpace(s[i]))
  }

  /** str.strip(): the input with its leading and trailing whitespace removed. */
  function Strip(s: string): (r: string)
    ensures r == [] || (!IsSpace(r[0]) && !IsSpace(r[|r| - 1]))
    ensures Contains(s, r)
    ensures r == [] <==> forall i | 0 <= i < |s| :: IsSpace(s[i])
    ensures exists k | 0 <= k <= |s| :: Surrounds(s, r, k)
  {
    var a := SpaceEnd(s, 0);
    var b := SpaceStart(s, a, |s|);
    StripInfix(s, a, b);
    s[a..b]
  }

  /** The text between the leading and the trailing whitespace: it is
      surrounded by whitespace only, has none at either end, and is empty
      only when the whole input is whitespace. */
  lemma StripInfix(s: string, a: nat, b: nat)
    requires a <= b <= |s|
    requires forall i | 0 <= i < a :: IsSpace(s[i])
    requires a == |s| || !IsSpace(s[a])
    requires forall i | b <= i < |s| :: IsSpace(s[i])
    requires b == a || !IsSpace(s[b - 1])
    ensures var r := s[a..b]; r == [] || (!IsSpace(r[0]) && !IsSpace(r[|r| - 1]))
    ensures Contains(s, s[a..b])
    ensures s[a..b] == [] <==> forall i | 0 <= i < |s| :: IsSpace(s[i])
    ensures exists k | 0 <= k <= |s| :: Surrounds(s, s[a..b], k)
  {
    var r := s[a..b];
    assert HasAt(s, r, a);
    assert Surrounds(s, r, a);
    if a < b {
      assert r[0] == s[a] && r[|r| - 1] == s[b - 1];
    }
  }

  /** os.path.basename: everything after the last '/'. */
  function Basename(p: string): (r: string)
    ensures EndsWith(p, r)
    ensures '/' !in r
    ensures |r| < |p| ==> p[|p| - |r| - 1] == '/'
  {
    if p == [] || p[|p| - 1] == '/' then []
    else Basename(p[..|p| - 1]) + [p[|p| - 1]]
  }

  /** os.path.join(a, b) for two components: an absolute b replaces a;
      otherwise a, one '/' unless a is empty or already ends in one, then b. */
  function Join(a: string, b: string): (r: string)
    ensures EndsWith(r, b)
    ensures |b| > 0 && b[0] == '/' ==> r == b
    ensures !(|b| > 0 && b[0] == '/') ==>
      |a| + |b| <= |r| <= |a| + |b| + 1 && r[..|a|] == a
      && (|r| == |a| + |b| + 1 <==> a != [] && a[|a| - 1] != '/')
      && (|r| == |a| + |b| + 1 ==> r[|a|] == '/')
  {
    if |b| > 0 && b[0] == '/' then b
    else if a == [] || a[|a| - 1] == '/' then a + b
    else a + "/" + b
  }

  /** A name with no '/' is its own basename once joined under any directory. */
  lemma {:induction false} BasenameOfJoin(dir: string, name: string)
    requires '/' !in name
    ensures Basename(Join(dir, name)) == name
  {
    var p := Join(dir, name);
    assert EndsWith(p, name);
    assert |name| < |p| ==> p[|p| - |name| - 1] == '/';
    BasenameOfSuffix(p, name);
  }

  lemma {:induction false} BasenameOfSuffix(p: string, name: string)
    requires EndsWith(p, name) && '/' !in name
    requires |name| < |p| ==> p[|p| - |name| - 1] == '/'
    ensures Basename(p) == name
    decreases |name|
  {
    if name == [] {
    } else {
      var q := p[..|p| - 1];
      assert p[|p| - 1] == name[|name| - 1];
      assert name[|name| - 1] in name;
      assert EndsWith(q, name[..|name| - 1]) by {
        assert q[|q| - (|name| - 1)..] == p[|p| - |name|..|p| - 1];
      }
      assert |name| - 1 < |q| ==> q[|q| - (|name| - 1) - 1] == '/';
      assert forall c | c in name[..|name| - 1] :: c in name;
      BasenameOfSuffix(q, name[..|name| - 1]);
    }
  }

  // --------------------------------------------------- ASCII and decimals

  predicate IsAscii(s: string) {
    forall i | 0 <= i < |s| :: s[i] as int < 128
  }

  /** `s.encode('ascii')` for text known to be ASCII. */
  function Ascii(s: string): (r: Bytes)
    requires IsAscii(s)
    ensures |r| == |s|
    ensures forall i | 0 <= i < |s| :: r[i] as int == s[i] as int
  {
    seq(|s|, i requires 0 <= i < |s| => s[i] as int as byte)
  }

  predicate IsDigitByte(b: byte) {
    48 <= b <= 57
  }

  /** `str(n).encode('ascii')` for n >= 0: decimal digits, no leading zero. */
  function DecimalAscii(n: nat): (r: Bytes)
    decreases n
  {
    if n < 10 then [(48 + n) as byte] else DecimalAscii(n / 10) + [(48 + n % 10) as byte]
  }

  /** `str(n)` for n >= 0, as text: the same digits as DecimalAscii. */
  function DecimalText(n: nat): (r: string)
    ensures IsAscii(r) && Ascii(r) == DecimalAscii(n)
    decreases n
  {
    if n < 10 then [(48 + n) as char]
    else
      var r := DecimalText(n / 10) + [(48 + n % 10) as char];
      assert Ascii(r) == Ascii(DecimalText(n / 10)) + [(48 + n % 10) as byte];
      r
  }

  /** The value of a run of ASCII digits. */
  function DigitsValue(d: Bytes): nat
    requires forall i | 0 <= i < |d| :: IsDigitByte(d[i])
  {
    if d == [] then 0
    else
      var last := d[|d| - 1];
      assert IsDigitByte(last);
      DigitsValue(d[..|d| - 1]) * 10 + (last as int - 48)
  }

  /** The decimal rendering is a non-empty run of digits, without a leading
      zero unless it is "0", and reading it back gives the number. */
  lemma {:induction false} DecimalRoundTrip(n: nat)
    ensures |DecimalAscii(n)| > 0
    ensures forall i | 0 <= i < |DecimalAscii(n)| :: IsDigitByte(DecimalAscii(n)[i])
    ensures |DecimalAscii(n)| > 1 ==> DecimalAscii(n)[0] != 48
    ensures DigitsValue(DecimalAscii(n)) == n
    decreases n
  {
    if n >= 10 {
      DecimalRoundTrip(n / 10);
      var d := DecimalAscii(n);
      assert d[..|d| - 1] == DecimalAscii(n / 10);
      assert d[0] == DecimalAscii(n / 10)[0];
    }
  }
}
