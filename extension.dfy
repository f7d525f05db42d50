/** Choosing the file-name extension of a captured image (`_choose_ext`,
    identical in every server version): the fixed MIME table first, then the
    guess of Python's mimetypes module, then the extension of the camera-side
    file name as os.path.splitext gives it, and ".bin" last. The mimetypes
    table is not part of this model: its answer is a parameter. */
module Extension {
  import opened Common

  /** str.rfind for one character: the last index holding c, or -1. */
  function RFind(p: string, c: char): (r: int)
    ensures -1 <= r < |p|
    ensures r >= 0 ==> p[r] == c
    ensures forall k | r < k < |p| :: p[k] != c
  {
    if p == [] then -1
    else if p[|p| - 1] == c then |p| - 1
    else RFind(p[..|p| - 1], c)
  }

  /** Between the last '/' and the last '.', some character is not a dot:
      the rule by which splitext skips the leading dots of a name. */
  predicate HasStemBefore(p: string, sepIndex: int, dotIndex: int)
    requires -1 <= sepIndex && dotIndex <= |p|
  {
    exists k | sepIndex + 1 <= k < dotIndex :: p[k] != '.'
  }

  /** os.path.splitext with POSIX separators: (root, ext). */
  function SplitExt(p: string): (r: (string, string))
    ensures r.0 + r.1 == p
    ensures r.1 == [] || (r.1[0] == '.' && '/' !in r.1 && '.' !in r.1[1..])
  {
    var sepIndex := RFind(p, '/');
    var dotIndex := RFind(p, '.');
    if dotIndex > sepIndex && HasStemBefore(p, sepIndex, dotIndex) then
      assert forall c | c in p[dotIndex..] :: c != '/' by {
        forall c | c in p[dotIndex..] ensures c != '/' {
          var k :| 0 <= k < |p[dotIndex..]| && p[dotIndex..][k] == c;
          assert p[dotIndex + k] == c;
        }
      }
      assert forall c | c in p[dotIndex..][1..] :: c != '.' by {
        forall c | c in p[dotIndex..][1..] ensures c != '.' {
          var k :| 0 <= k < |p[dotIndex..][1..]| && p[dotIndex..][1..][k] == c;
          assert p[dotIndex + 1 + k] == c;
        }
      }
      (p[..dotIndex], p[dotIndex..])
    else
      (p, [])
  }

  lemma {:induction false} RFindAbsent(p: string, c: char)
    requires c !in p
    ensures RFind(p, c) == -1
  {
    if p != [] {
      assert p[|p| - 1] in p;
      assert forall x | x in p[..|p| - 1] :: x in p;
      RFindAbsent(p[..|p| - 1], c);
    }
  }

  lemma {:induction false} RFindLast(p: string, c: char, e: string)
    requires c !in e
    ensures RFind(p + [c] + e, c) == |p|
    decreases |e|
  {
    var q := p + [c] + e;
    if e == [] {
      assert q[|q| - 1] == c;
    } else {
      assert q[|q| - 1] == e[|e| - 1] && e[|e| - 1] in e;
      assert q[..|q| - 1] == p + [c] + e[..|e| - 1];
      assert forall x | x in e[..|e| - 1] :: x in e;
      RFindLast(p, c, e[..|e| - 1]);
    }
  }

  /** A camera file name such as "DSC_0042.NEF": a stem with at least one
      non-dot character and no '/', a dot, and a tail without dots or
      slashes splits into that stem and "." plus the tail. */
  lemma {:induction false} SplitExtOfName(stem: string, tail: string)
    requires '/' !in stem && '/' !in tail && '.' !in tail
    requires exists k | 0 <= k < |stem| :: stem[k] != '.'
    ensures SplitExt(stem + "." + tail) == (stem, "." + tail)
  {
    var p := stem + "." + tail;
    RFindLast(stem, '.', tail);
    assert '/' !in p by {
      forall c | c in p ensures c != '/' {
        assert c in stem || c == '.' || c in tail;
      }
    }
    RFindAbsent(p, '/');
    var k :| 0 <= k < |stem| && stem[k] != '.';
    assert p[k] == stem[k];
    assert HasStemBefore(p, -1, |stem|);
    assert p[..|stem|] == stem && p[|stem|..] == "." + tail;
  }

  /** A name made of dots and one trailing word (".bashrc", "..x") has no
      extension: splitext only splits after a non-dot character. */
  lemma {:induction false} SplitExtOfDotName(dots: nat, tail: string)
    requires '/' !in tail && '.' !in tail
    ensures var p := seq(dots + 1, _ => '.') + tail; SplitExt(p) == (p, [])
  {
    var d := seq(dots + 1, _ => '.');
    var p := d + tail;
    assert d == d[..dots] + ['.'];
    RFindLast(d[..dots], '.', tail);
    assert RFind(p, '.') == dots by {
      assert p == d[..dots] + ['.'] + tail;
    }
    assert '/' !in p by {
      forall c | c in p ensures c != '/' {
        assert c in d || c in tail;
      }
    }
    RFindAbsent(p, '/');
    assert !HasStemBefore(p, -1, dots) by {
      forall k | 0 <= k < dots ensures p[k] == '.' {
        assert p[k] == d[k];
      }
    }
  }

  /** EXT_MAP: the MIME types with a fixed extension. */
  const ExtMap: map<string, string> := map[
    "image/jpeg" := ".jpg",
    "image/x-canon-cr2" := ".cr2",
    "image/x-nikon-nef" := ".nef",
    "image/tiff" := ".tif"
  ]

  /** `_choose_ext(mime, fallback_name)`, where `guessed` is what
      mimetypes.guess_extension answers for `mime`. */
  function ChooseExt(mime: string, fallbackName: string, guessed: Option<string>): (r: string)
    ensures r != []
    ensures mime in ExtMap ==> r == ExtMap[mime]
    ensures mime !in ExtMap && PresentText(guessed) ==> r == guessed.value
    ensures mime !in ExtMap && !PresentText(guessed) ==>
      r == ".bin" || (r[0] == '.' && '/' !in r && EndsWith(fallbackName, r))
  {
    if mime in ExtMap then ExtMap[mime]
    else if PresentText(guessed) then guessed.value
    else
      var ext := SplitExt(fallbackName).1;
      if ext != [] then ext else ".bin"
  }

  /** The four table types win over every device file name and every guess. */
  lemma TableWins(fallbackName: string, guessed: Option<string>)
    ensures ChooseExt("image/jpeg", fallbackName, guessed) == ".jpg"
    ensures ChooseExt("image/x-canon-cr2", fallbackName, guessed) == ".cr2"
    ensures ChooseExt("image/x-nikon-nef", fallbackName, guessed) == ".nef"
    ensures ChooseExt("image/tiff", fallbackName, guessed) == ".tif"
  {
  }

  /** An unknown MIME type that mimetypes cannot map keeps the extension of
      the camera file name, e.g. "image/x-sony-arw" and "DSC01234.ARW". */
  lemma UnknownMimeKeepsDeviceExtension(mime: string, stem: string, tail: string)
    requires mime !in ExtMap
    requires '/' !in stem && '/' !in tail && '.' !in tail
    requires exists k | 0 <= k < |stem| :: stem[k] != '.'
    ensures ChooseExt(mime, stem + "." + tail, None) == "." + tail
  {
    SplitExtOfName(stem, tail);
  }

  /** With nothing to go on (no guess, a name without extension), ".bin". */
  lemma UnknownMimeWithoutNameExtension(mime: string, dots: nat, tail: string)
    requires mime !in ExtMap
    requires '/' !in tail && '.' !in tail
    ensures ChooseExt(mime, seq(dots + 1, _ => '.') + tail, None) == ".bin"
    ensures ChooseExt(mime, tail, None) == ".bin"
  {
    SplitExtOfDotName(dots, tail);
    assert SplitExt(tail).1 == [] by {
      RFindAbsent(tail, '.');
    }
  }
}
