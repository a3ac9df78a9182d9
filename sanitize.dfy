/**
 * Argument sanitisation of the request handler: the pitch default, the two
 * `replace` passes over the message, the `cmd_regex` pass over model and
 * pitch, `parseInt` with its NaN default, and the text the cache key hashes.
 */
module Sanitizer {
  import opened Wrappers
  import opened JsText

  /** The request fields after sanitisation: model name, message text and the integral pitch. */
  datatype Sanitized = Sanitized(model: string, message: string, pitch: int)

  /** `pitch || '1'`: an absent or empty pitch reads as "1". */
  function PitchText(pitch: Option<string>): (t: string)
    ensures t != []
    ensures pitch.None? || pitch.value == [] ==> t == "1"
    ensures pitch.Some? && pitch.value != [] ==> t == pitch.value
  {
    if pitch.None? || pitch.value == "" then "1" else pitch.value
  }

  /** `parseInt` of the stripped pitch text, with 1 in place of NaN; no clamping. */
  function NumPitch(pitch: Option<string>): int {
    match ParseInt(StripCmdPrefix(PitchText(pitch)))
    case None => 1
    case Some(p) => p
  }

  /** The message with every `&` spelt out and the `cmd_regex` match removed. */
  function SanitizeMessage(message: string): (r: string)
    ensures '&' !in r
    ensures |r| <= |ReplaceAmpersands(message)|
  {
    StripCmdPrefix(ReplaceAmpersands(message))
  }

  /** All three fields of a request whose model and message are present. */
  function Sanitize(model: string, pitch: Option<string>, message: string): Sanitized {
    Sanitized(StripCmdPrefix(model), SanitizeMessage(message), NumPitch(pitch))
  }

  /** The text the cache key hashes: model, message and pitch run together without separators. */
  function KeyText(s: Sanitized): string {
    s.model + s.message + IntToDecimal(s.pitch)
  }

  /** Text that starts with a digit or a minus sign is left alone by `cmd_regex`. */
  lemma StripCmdKeepsNumber(t: string)
    requires t != [] && (t[0] == '-' || IsDigitIn(t[0], 10))
    ensures StripCmdPrefix(t) == t
  {
    StripCmdNeedsHead(t);
  }

  /** No pitch, or an empty one, gives pitch 1. */
  lemma PitchDefault()
    ensures NumPitch(None) == 1
    ensures NumPitch(Some("")) == 1
  {
    assert PitchText(None) == "1";
    StripCmdKeepsNumber("1");
    ParseIntOfDecimal(1);
    assert IntToDecimal(1) == "1";
  }

  /** Every integer written in decimal comes through unchanged: nothing clamps it, "0" gives 0. */
  lemma PitchOfDecimal(n: int)
    ensures NumPitch(Some(IntToDecimal(n))) == n
  {
    var t := IntToDecimal(n);
    assert PitchText(Some(t)) == t;
    StripCmdKeepsNumber(t);
    ParseIntOfDecimal(n);
  }

  /** Digits followed by a fraction or other non-digits: only the integer prefix counts ("1.5" gives 1). */
  lemma PitchIntegerPrefix(n: nat, rest: string)
    requires rest == [] || !IsDigitIn(rest[0], 10)
    requires n == 0 && rest != [] ==> rest[0] != 'x' && rest[0] != 'X'
    ensures NumPitch(Some(NatToDecimal(n) + rest)) == n
  {
    var d := NatToDecimal(n);
    var t := d + rest;
    assert t[0] == d[0];
    StripCmdKeepsNumber(t);
    ParseIntDigitPrefix(d, rest);
    NatToDecimalValue(n);
  }

  /** A fraction is cut off: "1.5" gives 1. */
  lemma PitchFractionTruncated()
    ensures NumPitch(Some("1.5")) == 1
  {
    assert NatToDecimal(1) + ".5" == "1.5";
    PitchIntegerPrefix(1, ".5");
  }

  /** Nothing is clamped: "0" gives 0 and "-3" gives -3. */
  lemma PitchNotClamped()
    ensures NumPitch(Some("0")) == 0
    ensures NumPitch(Some("-3")) == -3
  {
    assert IntToDecimal(0) == "0";
    PitchOfDecimal(0);
    assert IntToDecimal(-3) == "-3";
    PitchOfDecimal(-3);
  }

  /** A pitch parseInt cannot read, such as "abc", is NaN and gives 1. */
  lemma PitchNaNDefault()
    ensures NumPitch(Some("abc")) == 1
  {
    StripCmdNeedsHead("abc");
    assert PitchText(Some("abc")) == "abc";
    ParseIntNaNExamples();
  }

  /** The sanitised message never contains `&`, so `&` and `and` are the same request. */
  lemma {:induction false} AmpersandSpelledOut(m: string, p: Option<string>, a: string, b: string)
    ensures KeyText(Sanitize(m, p, a + "&" + b)) == KeyText(Sanitize(m, p, a + "and" + b))
  {
    ReplaceAmpersandsAppend(a + "&", b);
    ReplaceAmpersandsAppend(a, "&");
    ReplaceAmpersandsAppend(a + "and", b);
    ReplaceAmpersandsAppend(a, "and");
    assert ReplaceAmpersands("&") == "and";
    assert ReplaceAmpersands("and") == "and";
  }

  /** Without separators, moving characters between model and message leaves the key text alone. */
  lemma KeyTextSeam(s1: Sanitized, s2: Sanitized)
    requires s1.model + s1.message == s2.model + s2.message && s1.pitch == s2.pitch
    ensures KeyText(s1) == KeyText(s2)
  {
    assert KeyText(s1) == (s1.model + s1.message) + IntToDecimal(s1.pitch);
    assert KeyText(s2) == (s2.model + s2.message) + IntToDecimal(s2.pitch);
  }

  /** A short model and a short message without `&` come through sanitisation unchanged. */
  lemma SanitizeLeavesPlain(model: string, pitch: Option<string>, message: string)
    requires |model| <= |CmdHead| && |message| <= |CmdHead| && '&' !in message
    ensures Sanitize(model, pitch, message) == Sanitized(model, message, NumPitch(pitch))
  {
    StripCmdNeedsHead(model);
    assert ReplaceAmpersands(message) == message;
    StripCmdNeedsHead(message);
  }

  /** The voices "amy" and "am", with messages "hello" and "yhello", pass through sanitisation unchanged. */
  lemma CollidingRequestsKept(p: Option<string>)
    ensures Sanitize("amy", p, "hello") == Sanitized("amy", "hello", NumPitch(p))
    ensures Sanitize("am", p, "yhello") == Sanitized("am", "yhello", NumPitch(p))
  {
    SanitizeLeavesPlain("amy", p, "hello");
    SanitizeLeavesPlain("am", p, "yhello");
  }

  /**
   * Two different voices and messages that share a cache key at every pitch:
   * "amy"/"hello" and "am"/"yhello", which `CollidingRequestsKept` shows
   * are what those requests sanitise to.
   */
  lemma KeyTextCollision(pitch: int)
    ensures KeyText(Sanitized("amy", "hello", pitch)) == KeyText(Sanitized("am", "yhello", pitch))
  {
    KeyTextSeam(Sanitized("amy", "hello", pitch), Sanitized("am", "yhello", pitch));
  }

  /**
   * The message and the pitch run together too: a message ending in "1" at a
   * one-digit pitch `d` has the key text of the message without it at pitch 1d.
   */
  lemma KeyTextPitchSeam(model: string, message: string, d: nat)
    requires d < 10
    ensures KeyText(Sanitized(model, message + "1", d)) == KeyText(Sanitized(model, message, 10 + d))
  {
    assert NatToDecimal(1) == "1";
    assert IntToDecimal(10 + d) == "1" + IntToDecimal(d) by {
      assert (10 + d) / 10 == 1 && (10 + d) % 10 == d;
    }
  }
}
