/** The pure helpers at the top of src/whatsapp/index.js. */
module WhatsAppText {
  import opened Wrappers
  import opened JsStrings
  import opened Engine

  /** The digits of `s`, in order. */
  function Digits(s: string): (r: string)
    ensures |r| <= |s|
    ensures forall i :: 0 <= i < |r| ==> IsDigit(r[i])
  {
    if s == [] then [] else (if IsDigit(s[0]) then [s[0]] else []) + Digits(s[1..])
  }

  /** `sanitizePhone(value)`: `String(value ?? '')` with every non-digit removed. */
  function SanitizePhone(value: Option<string>): string {
    Digits(value.GetOr(""))
  }

  /** `jidToPhone(jid)`: the digits of the user part of a JID, before any `@` and device `:`. */
  function JidToPhone(jid: Option<string>): string {
    if !Truthy(jid) then ""
    else SanitizePhone(Some(TakeUntil(TakeUntil(jid.value, '@'), ':')))
  }

  /** Digit filtering distributes over concatenation: it keeps each digit where it stood. */
  lemma {:induction false} DigitsAppend(a: string, b: string)
    ensures Digits(a + b) == Digits(a) + Digits(b)
    decreases |a|
  {
    if a == [] {
      assert a + b == b;
    } else {
      assert (a + b)[1..] == a[1..] + b;
      DigitsAppend(a[1..], b);
    }
  }

  /** A digit survives and any other character disappears. */
  lemma DigitsOfChar(c: char)
    ensures Digits([c]) == if IsDigit(c) then [c] else []
  {
  }

  /** A string of digits only is left unchanged. */
  lemma {:induction false} DigitsOfDigitString(s: string)
    requires forall i :: 0 <= i < |s| ==> IsDigit(s[i])
    ensures Digits(s) == s
    decreases |s|
  {
    if s != [] {
      DigitsOfDigitString(s[1..]);
    }
  }

  /** `sanitizePhone(undefined)` and `sanitizePhone(null)` are `''`. */
  lemma SanitizeMissing()
    ensures SanitizePhone(None) == ""
  {
  }

  /** `sanitizePhone(sanitizePhone(v)) == sanitizePhone(v)` */
  lemma SanitizeIdempotent(v: Option<string>)
    ensures SanitizePhone(Some(SanitizePhone(v))) == SanitizePhone(v)
  {
    DigitsOfDigitString(SanitizePhone(v));
  }

  /** `sanitizePhone` gives `''` exactly when the input holds no digit. */
  lemma {:induction false} DigitsEmptyIff(s: string)
    ensures Digits(s) == "" <==> forall i :: 0 <= i < |s| ==> !IsDigit(s[i])
    decreases |s|
  {
    if s != [] {
      DigitsEmptyIff(s[1..]);
      assert forall i :: 1 <= i < |s| ==> s[i] == s[1..][i - 1];
    }
  }

  /** `jidToPhone('')` is `''`, and so is `jidToPhone(undefined)`. */
  lemma JidToPhoneEmpty()
    ensures JidToPhone(Some("")) == "" && JidToPhone(None) == ""
  {
  }

  /** For `user@server` the result is the digits of `user`. */
  lemma JidToPhoneOfJid(user: string, server: string)
    requires '@' !in user && ':' !in user
    ensures JidToPhone(Some(user + "@" + server)) == SanitizePhone(Some(user))
  {
    TakeUntilSplit(user, '@', server);
    TakeUntilAbsent(user, ':');
  }

  /** For `user:device@server` the device suffix is dropped too. */
  lemma JidToPhoneOfDeviceJid(user: string, device: string, server: string)
    requires '@' !in user && ':' !in user && '@' !in device
    ensures JidToPhone(Some(user + ":" + device + "@" + server)) == SanitizePhone(Some(user))
  {
    assert user + ":" + device + "@" + server == (user + ":" + device) + ['@'] + server;
    TakeUntilSplit(user + ":" + device, '@', server);
    assert user + ":" + device == user + [':'] + device;
    TakeUntilSplit(user, ':', device);
  }

  /**
   * The text candidates of a payload in the priority order `extractMessageText` tries them:
   * conversation, extended text, image caption, video caption, document caption and
   * hydrated template text.
   */
  function TextCandidates(m: MessageContent): (r: seq<Option<string>>)
    ensures |r| == 6
  {
    [ m.conversation,
      if m.extendedTextMessage.Some? then m.extendedTextMessage.value.text else None,
      if m.imageMessage.Some? then m.imageMessage.value.caption else None,
      if m.videoMessage.Some? then m.videoMessage.value.caption else None,
      if m.documentWithCaptionMessage.Some? then m.documentWithCaptionMessage.value.caption else None,
      if m.templateMessage.Some? && m.templateMessage.value.hydratedTemplate.Some?
      then m.templateMessage.value.hydratedTemplate.value.hydratedContentText else None ]
  }

  /** The first truthy candidate, or `''` when there is none. */
  function FirstTruthy(cs: seq<Option<string>>): (r: string)
    ensures r == "" || exists i :: 0 <= i < |cs| && cs[i] == Some(r)
  {
    if cs == [] then ""
    else if Truthy(cs[0]) then cs[0].value
    else FirstTruthy(cs[1..])
  }

  /** `extractMessageText(message)` */
  function ExtractMessageText(message: Option<MessageContent>): string {
    if message.None? then ""
    else
      var m := message.value;
      if Truthy(m.conversation) then m.conversation.value
      else if m.extendedTextMessage.Some? && Truthy(m.extendedTextMessage.value.text) then m.extendedTextMessage.value.text.value
      else if m.imageMessage.Some? && Truthy(m.imageMessage.value.caption) then m.imageMessage.value.caption.value
      else if m.videoMessage.Some? && Truthy(m.videoMessage.value.caption) then m.videoMessage.value.caption.value
      else if m.documentWithCaptionMessage.Some? && Truthy(m.documentWithCaptionMessage.value.caption) then m.documentWithCaptionMessage.value.caption.value
      else if m.templateMessage.Some? && m.templateMessage.value.hydratedTemplate.Some?
        && Truthy(m.templateMessage.value.hydratedTemplate.value.hydratedContentText)
      then m.templateMessage.value.hydratedTemplate.value.hydratedContentText.value
      else ""
  }

  lemma FirstTruthyCons(c: Option<string>, rest: seq<Option<string>>)
    ensures FirstTruthy([c] + rest) == if Truthy(c) then c.value else FirstTruthy(rest)
  {
    assert ([c] + rest)[1..] == rest;
  }

  /** A missing payload has no text. */
  lemma ExtractMissing()
    ensures ExtractMessageText(None) == ""
  {
  }

  /** `extractMessageText` is the first truthy candidate in the fixed priority order. */
  lemma ExtractIsFirstTruthy(m: MessageContent)
    ensures ExtractMessageText(Some(m)) == FirstTruthy(TextCandidates(m))
  {
    var cs := TextCandidates(m);
    var t5 := [cs[5]];
    var t4 := [cs[4]] + t5;
    var t3 := [cs[3]] + t4;
    var t2 := [cs[2]] + t3;
    var t1 := [cs[1]] + t2;
    assert cs == [cs[0]] + t1;
    FirstTruthyCons(cs[5], []);
    assert [cs[5]] + [] == t5;
    FirstTruthyCons(cs[4], t5);
    FirstTruthyCons(cs[3], t4);
    FirstTruthyCons(cs[2], t3);
    FirstTruthyCons(cs[1], t2);
    FirstTruthyCons(cs[0], t1);
  }

  /** The extracted text is one of the candidates, every earlier candidate was falsy, and `''` means none was truthy. */
  lemma {:induction false} FirstTruthyChoice(cs: seq<Option<string>>)
    ensures FirstTruthy(cs) == "" <==> forall i :: 0 <= i < |cs| ==> !Truthy(cs[i])
    ensures FirstTruthy(cs) != "" ==>
      exists i :: 0 <= i < |cs| && cs[i] == Some(FirstTruthy(cs)) && forall j :: 0 <= j < i ==> !Truthy(cs[j])
    decreases |cs|
  {
    if cs != [] && !Truthy(cs[0]) {
      FirstTruthyChoice(cs[1..]);
      assert forall i :: 1 <= i < |cs| ==> cs[i] == cs[1..][i - 1];
      if FirstTruthy(cs) != "" {
        var k :| 0 <= k < |cs[1..]| && cs[1..][k] == Some(FirstTruthy(cs)) && forall j :: 0 <= j < k ==> !Truthy(cs[1..][j]);
        assert cs[k + 1] == Some(FirstTruthy(cs));
      }
    }
  }
}
