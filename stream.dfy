/** The multipart/x-mixed-replace preview stream (`generate_frames`).

    serverV8.py sends one part per NEW frame version, paced by a send
    interval, and each part carries a Content-Length header field
    (section 8.6 of RFC 9110) after the "--frame" delimiter line
    (section 5.1.1 of RFC 2046). serverV3.py and serverV5.py send the current
    frame on every poll, without a length. */
module Stream {
  import opened Common

  const Boundary: Bytes := Ascii("--frame\r\n")
  const TypeField: Bytes := Ascii("Content-Type: image/jpeg\r\n")
  const LengthName: Bytes := Ascii("Content-Length: ")
  const Crlf: Bytes := [13, 10]

  /** Everything of a serverV8.py part before the decimal length. */
  const Head: Bytes := Boundary + TypeField + LengthName

  /** One serverV8.py part:
      `--frame\r\n` `Content-Type: image/jpeg\r\n` `Content-Length: <n>\r\n\r\n` frame `\r\n`. */
  function Part(frame: Bytes): Bytes {
    Head + DecimalAscii(|frame|) + Crlf + Crlf + frame + Crlf
  }

  // ------------------------------------------------------ reading parts back

  /** The number of leading ASCII digits. */
  function DigitRun(s: Bytes): (n: nat)
    ensures n <= |s|
    ensures forall i | 0 <= i < n :: IsDigitByte(s[i])
    ensures n < |s| ==> !IsDigitByte(s[n])
  {
    if s != [] && IsDigitByte(s[0]) then 1 + DigitRun(s[1..]) else 0
  }

  /** What a client reads from the front of the stream: the frame of the first
      part and the number of bytes that part occupies, found through its
      Content-Length rather than by searching for the next delimiter. */
  function ReadPart(s: Bytes): Option<(Bytes, nat)> {
    if |s| < |Head| || s[..|Head|] != Head then None
    else
      match ReadLength(s[|Head|..])
      case None => None
      case Some(r) => Some((r.0, |Head| + r.1))
  }

  /** After the header names: the decimal length, then the framed body. */
  function ReadLength(rest: Bytes): Option<(Bytes, nat)> {
    var d := DigitRun(rest);
    if d == 0 then None
    else
      match ReadBody(rest[d..], DigitsValue(rest[..d]))
      case None => None
      case Some(r) => Some((r.0, d + r.1))
  }

  /** The blank line, n bytes of frame, and the closing CRLF. */
  function ReadBody(body: Bytes, n: nat): Option<(Bytes, nat)> {
    if |body| < n + 6 || body[..4] != Crlf + Crlf || body[n + 4..n + 6] != Crlf then None
    else Some((body[4..n + 4], n + 6))
  }

  /** Every part read from the stream, in order, until the bytes run out or
      stop making sense. */
  function ReadAll(s: Bytes): seq<Bytes>
    decreases |s|
  {
    match ReadPart(s)
    case None => []
    case Some(r) => if 0 < r.1 <= |s| then [r.0] + ReadAll(s[r.1..]) else []
  }

  /** The bytes generate_frames yields for a sequence of frames. */
  function Emit(frames: seq<Bytes>): Bytes {
    if frames == [] then [] else Part(frames[0]) + Emit(frames[1..])
  }

  lemma {:induction false} DigitRunOfDigits(d: Bytes, rest: Bytes)
    requires forall i | 0 <= i < |d| :: IsDigitByte(d[i])
    requires rest != [] && !IsDigitByte(rest[0])
    ensures DigitRun(d + rest) == |d|
  {
    if d != [] {
      assert (d + rest)[1..] == d[1..] + rest;
      DigitRunOfDigits(d[1..], rest);
    }
  }

  /** A part is read back as exactly its frame, whatever follows it and
      whatever bytes the frame holds (even ones that look like a delimiter). */
  lemma ReadPartOfPart(frame: Bytes, tail: Bytes)
    ensures ReadPart(Part(frame) + tail) == Some((frame, |Part(frame)|))
  {
    var dec := DecimalAscii(|frame|);
    var framed := Crlf + Crlf + frame + Crlf;
    var after := framed + tail;
    var front := Head + dec;
    assert front + Crlf + Crlf == front + (Crlf + Crlf);
    assert front + (Crlf + Crlf) + frame == front + (Crlf + Crlf + frame);
    assert front + (Crlf + Crlf + frame) + Crlf == front + framed;
    assert Part(frame) == front + framed;
    assert front + framed + tail == front + after;
    assert front + after == Head + (dec + after);
    ReadLengthOf(frame, tail);
    ReadPartOfHead(dec + after);
  }

  /** Behind the header names, ReadPart reads on as ReadLength does. */
  lemma ReadPartOfHead(rest: Bytes)
    ensures ReadPart(Head + rest) ==
      match ReadLength(rest)
      case None => None
      case Some(r) => Some((r.0, |Head| + r.1))
  {
    var s := Head + rest;
    assert s[..|Head|] == Head && s[|Head|..] == rest;
  }

  lemma ReadLengthOf(frame: Bytes, tail: Bytes)
    ensures var dec := DecimalAscii(|frame|);
      ReadLength(dec + (Crlf + Crlf + frame + Crlf + tail)) == Some((frame, |dec| + |frame| + 6))
  {
    var dec := DecimalAscii(|frame|);
    var after := Crlf + Crlf + frame + Crlf + tail;
    DecimalRoundTrip(|frame|);
    DigitRunOfDigits(dec, after);
    var rest := dec + after;
    assert rest[..|dec|] == dec && rest[|dec|..] == after;
    ReadBodyOf(frame, tail);
  }

  lemma ReadBodyOf(frame: Bytes, tail: Bytes)
    ensures ReadBody(Crlf + Crlf + frame + Crlf + tail, |frame|) == Some((frame, |frame| + 6))
  {
    var body := Crlf + Crlf + frame + Crlf + tail;
    assert body[..4] == Crlf + Crlf;
    assert body[4..|frame| + 4] == frame;
    assert body[|frame| + 4..|frame| + 6] == Crlf;
  }

  /** Reading the whole stream recovers the frames that were sent. */
  lemma {:induction false} ReadAllEmit(frames: seq<Bytes>)
    ensures ReadAll(Emit(frames)) == frames
  {
    if frames != [] {
      var s := Emit(frames);
      ReadPartOfPart(frames[0], Emit(frames[1..]));
      assert s[|Part(frames[0])|..] == Emit(frames[1..]);
      ReadAllEmit(frames[1..]);
    }
  }

  /** Hence two different frame sequences never produce the same bytes. */
  lemma EmitInjective(a: seq<Bytes>, b: seq<Bytes>)
    requires Emit(a) == Emit(b)
    ensures a == b
  {
    ReadAllEmit(a);
    ReadAllEmit(b);
  }

  // ----------------------------------------------- serverV3/V5 part layout

  const LegacyHead: Bytes := Boundary + Ascii("Content-Type: image/jpeg\r\n\r\n")

  /** One serverV3.py / serverV5.py part: no Content-Length. */
  function LegacyPart(frame: Bytes): Bytes {
    LegacyHead + frame + Crlf
  }

  /** Without a length, the stream alone cannot say where a frame ends: two
      parts are byte for byte one part whose frame contains the delimiter. */
  lemma LegacyPartsRunTogether(f1: Bytes, f2: Bytes)
    ensures LegacyPart(f1) + LegacyPart(f2) == LegacyPart(f1 + Crlf + LegacyHead + f2)
  {
    var first := LegacyHead + f1 + Crlf;
    var second := LegacyHead + f2;
    var joined := f1 + Crlf + LegacyHead + f2;
    assert first + (second + Crlf) == first + second + Crlf;
    assert first == LegacyHead + (f1 + Crlf);
    assert LegacyHead + (f1 + Crlf) + second == LegacyHead + (f1 + Crlf + second);
    assert f1 + Crlf + second == joined;
  }

  // ------------------------------------------------- serverV8.py generator

  /** One pass of the generator's loop: the clock at the top of the loop, the
      frame and version it reads under the lock, and the clock when the
      consumer resumes the generator after a yield. */
  datatype Snapshot = Snapshot(now: int, frame: Option<Bytes>, ver: int, resumed: int)

  /** The passes at which generate_frames yields a part, given the version it
      sent last and the earliest time it may send again. */
  function Sends(obs: seq<Snapshot>, i: nat, lastSent: int, nextSend: int, interval: nat): seq<nat>
    requires i <= |obs|
    decreases |obs| - i
  {
    if i == |obs| then []
    else if obs[i].now < nextSend then Sends(obs, i + 1, lastSent, nextSend, interval)
    else if PresentBytes(obs[i].frame) && obs[i].ver != lastSent then
      [i] + Sends(obs, i + 1, obs[i].ver, obs[i].resumed + interval, interval)
    else Sends(obs, i + 1, lastSent, nextSend, interval)
  }

  /** Each sent pass had a frame and lies in [i, |obs|). */
  ghost predicate SentPresent(obs: seq<Snapshot>, s: seq<nat>, i: nat) {
    forall k | 0 <= k < |s| :: i <= s[k] < |obs| && PresentBytes(obs[s[k]].frame)
  }

  /** Two consecutive sends are in order, carry different versions, and the
      later one comes at least one interval after the earlier one resumed. */
  ghost predicate Spaced(obs: seq<Snapshot>, s: seq<nat>, interval: nat)
    requires forall k | 0 <= k < |s| :: s[k] < |obs|
  {
    forall k | 0 <= k < |s| - 1 ::
      s[k] < s[k + 1] && obs[s[k]].ver != obs[s[k + 1]].ver
      && obs[s[k + 1]].now >= obs[s[k]].resumed + interval
  }

  lemma {:induction false} SendsHaveFacts(obs: seq<Snapshot>, i: nat, lastSent: int, nextSend: int, interval: nat)
    requires i <= |obs|
    ensures var s := Sends(obs, i, lastSent, nextSend, interval);
      SentPresent(obs, s, i) && Spaced(obs, s, interval)
      && (|s| > 0 ==> obs[s[0]].ver != lastSent && obs[s[0]].now >= nextSend)
    decreases |obs| - i
  {
    if i < |obs| {
      if obs[i].now < nextSend || !(PresentBytes(obs[i].frame) && obs[i].ver != lastSent) {
        assert Sends(obs, i, lastSent, nextSend, interval) == Sends(obs, i + 1, lastSent, nextSend, interval);
        SendsHaveFacts(obs, i + 1, lastSent, nextSend, interval);
      } else {
        var ns := obs[i].resumed + interval;
        var rest := Sends(obs, i + 1, obs[i].ver, ns, interval);
        SendsHaveFacts(obs, i + 1, obs[i].ver, ns, interval);
        var s := [i] + rest;
        assert Sends(obs, i, lastSent, nextSend, interval) == s;
        forall k | 0 <= k < |s| ensures i <= s[k] < |obs| && PresentBytes(obs[s[k]].frame) {
          if k > 0 {
            assert s[k] == rest[k - 1];
          }
        }
        assert SentPresent(obs, s, i);
        forall k | 0 <= k < |s| - 1
          ensures s[k] < s[k + 1] && obs[s[k]].ver != obs[s[k + 1]].ver
          ensures obs[s[k + 1]].now >= obs[s[k]].resumed + interval
        {
          if k > 0 {
            assert s[k] == rest[k - 1] && s[k + 1] == rest[k];
          } else {
            assert s[1] == rest[0];
          }
        }
        assert Spaced(obs, s, interval);
      }
    }
  }

  /** `generate_frames()` of serverV8.py, run over a finite number of passes of
      its endless loop. The send time starts at the clock value `start`. */
  method GenerateFrames(obs: seq<Snapshot>, start: int, interval: nat) returns (parts: seq<Bytes>, sentAt: seq<nat>)
    ensures sentAt == Sends(obs, 0, -1, start, interval)
    ensures |parts| == |sentAt|
    ensures forall k | 0 <= k < |sentAt| ::
      sentAt[k] < |obs| && PresentBytes(obs[sentAt[k]].frame) && parts[k] == Part(obs[sentAt[k]].frame.value)
    ensures forall k | 0 <= k < |sentAt| - 1 ::
      sentAt[k] < sentAt[k + 1] && obs[sentAt[k]].ver != obs[sentAt[k + 1]].ver
    ensures forall k | 0 <= k < |sentAt| - 1 :: obs[sentAt[k + 1]].now >= obs[sentAt[k]].resumed + interval
    ensures (forall a, b | 0 <= a < b < |obs| :: obs[a].ver <= obs[b].ver) ==>
      forall k | 0 <= k < |sentAt| - 1 :: obs[sentAt[k]].ver < obs[sentAt[k + 1]].ver
  {
    parts, sentAt := [], [];
    var i, lastSent, nextSend := 0, -1, start;
    while i < |obs|
      invariant i <= |obs|
      invariant sentAt + Sends(obs, i, lastSent, nextSend, interval) == Sends(obs, 0, -1, start, interval)
      invariant |parts| == |sentAt|
      invariant forall k | 0 <= k < |sentAt| ::
        sentAt[k] < i && PresentBytes(obs[sentAt[k]].frame) && parts[k] == Part(obs[sentAt[k]].frame.value)
    {
      var snap := obs[i];
      if snap.now < nextSend {
        // too early: sleep and poll again
        assert Sends(obs, i, lastSent, nextSend, interval) == Sends(obs, i + 1, lastSent, nextSend, interval);
      } else if PresentBytes(snap.frame) && snap.ver != lastSent {
        var rest := Sends(obs, i + 1, snap.ver, snap.resumed + interval, interval);
        assert Sends(obs, i, lastSent, nextSend, interval) == [i] + rest;
        assert sentAt + ([i] + rest) == (sentAt + [i]) + rest;
        parts := parts + [Part(snap.frame.value)];
        sentAt := sentAt + [i];
        lastSent := snap.ver;
        nextSend := snap.resumed + interval;
      } else {
        assert Sends(obs, i, lastSent, nextSend, interval) == Sends(obs, i + 1, lastSent, nextSend, interval);
      }
      i := i + 1;
    }
    assert sentAt == Sends(obs, 0, -1, start, interval);
    SendsInOrder(obs, start, interval, sentAt);
  }

  /** The sends of a whole run, stated as GenerateFrames promises them. */
  lemma SendsInOrder(obs: seq<Snapshot>, start: int, interval: nat, s: seq<nat>)
    requires s == Sends(obs, 0, -1, start, interval)
    ensures forall k | 0 <= k < |s| :: s[k] < |obs| && PresentBytes(obs[s[k]].frame)
    ensures forall k | 0 <= k < |s| - 1 :: s[k] < s[k + 1] && obs[s[k]].ver != obs[s[k + 1]].ver
    ensures forall k | 0 <= k < |s| - 1 :: obs[s[k + 1]].now >= obs[s[k]].resumed + interval
    ensures (forall a, b | 0 <= a < b < |obs| :: obs[a].ver <= obs[b].ver) ==>
      forall k | 0 <= k < |s| - 1 :: obs[s[k]].ver < obs[s[k + 1]].ver
  {
    SendsHaveFacts(obs, 0, -1, start, interval);
    if forall a, b | 0 <= a < b < |obs| :: obs[a].ver <= obs[b].ver {
      forall k | 0 <= k < |s| - 1 ensures obs[s[k]].ver < obs[s[k + 1]].ver {
        assert s[k] < s[k + 1];
      }
    }
  }

  // --------------------------------------------- serverV3/V5 generator

  /** `generate_frames()` of serverV3.py and serverV5.py over a finite number
      of polls: every poll that finds a non-empty frame yields it again,
      so an unchanged frame is resent on every poll. */
  method LegacyGenerateFrames(obs: seq<Option<Bytes>>) returns (parts: seq<Bytes>, sentAt: seq<nat>)
    ensures |parts| == |sentAt|
    ensures forall i :: i in sentAt <==> 0 <= i < |obs| && PresentBytes(obs[i])
    ensures forall k | 0 <= k < |sentAt| ::
      sentAt[k] < |obs| && PresentBytes(obs[sentAt[k]]) && parts[k] == LegacyPart(obs[sentAt[k]].value)
    ensures forall k | 0 <= k < |sentAt| - 1 :: sentAt[k] < sentAt[k + 1]
  {
    parts, sentAt := [], [];
    var i := 0;
    while i < |obs|
      invariant i <= |obs|
      invariant |parts| == |sentAt|
      invariant forall j :: j in sentAt <==> 0 <= j < i && PresentBytes(obs[j])
      invariant forall k | 0 <= k < |sentAt| ::
        sentAt[k] < i && PresentBytes(obs[sentAt[k]]) && parts[k] == LegacyPart(obs[sentAt[k]].value)
      invariant forall k | 0 <= k < |sentAt| - 1 :: sentAt[k] < sentAt[k + 1]
    {
      if PresentBytes(obs[i]) {
        parts := parts + [LegacyPart(obs[i].value)];
        sentAt := sentAt + [i];
      }
      i := i + 1;
    }
  }
}
