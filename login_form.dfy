/** The error banner of the login form: on load it reads the `error` parameter that the auth
    callback puts in its redirects, and shows it. `searchParams.get` has already undone the
    parameter's escapes, and the form then applies `decodeURIComponent` once more. */
module LoginForm {
  import opened Wrappers
  import opened UriEncoding
  import opened AuthCallback

  /** What the form shows: no banner, a banner with its text, or nothing because the
      effect threw `URIError`. */
  datatype Banner = NoBanner | Shown(text: string) | DecodeThrows

  /** The effect as written: an empty or absent parameter shows nothing, and any other
      value is decoded a second time. */
  function BannerAsWritten(location: string): Banner
  {
    var param := ErrorParam(location);
    if param.None? || param.value == "" then NoBanner
    else
      var text := Decode(param.value);
      if text.None? then DecodeThrows else Shown(text.value)
  }

  /** The effect with the single decoding `searchParams.get` already does. */
  function BannerOf(location: string): Banner
  {
    var param := ErrorParam(location);
    if param.None? || param.value == "" then NoBanner else Shown(param.value)
  }

  /** Decoded once, the banner of a login redirect shows exactly the message the callback
      sent, and nothing for an empty message. */
  lemma BannerShowsMessage(message: string)
    ensures BannerOf(LoginError + Encode(message))
            == if message == "" then NoBanner else Shown(message)
  {
    LoginRedirectReadsBack(message);
  }

  /** As written, a message that is itself the encoding of a text `s` is shown as `s`: the
      second decoding undoes escapes the message really contained. */
  lemma EncodedMessageShownDecoded(s: string)
    requires Encode(s) != s
    ensures BannerAsWritten(LoginError + Encode(Encode(s))) == Shown(s)
    ensures BannerOf(LoginError + Encode(Encode(s))) == Shown(Encode(s))
  {
    LoginRedirectReadsBack(Encode(s));
    DecodeEncode(s);
  }

  /** As written, a message whose first '%' does not start a well-formed escape makes the
      effect throw, where a single decoding shows the message. */
  lemma BadPercentThrows(message: string, i: nat)
    requires i < |message| && message[i] == '%' && ByteAt(message, i).None?
    requires forall j :: 0 <= j < i ==> message[j] != '%'
    ensures BannerAsWritten(LoginError + Encode(message)) == DecodeThrows
    ensures BannerOf(LoginError + Encode(message)) == Shown(message)
  {
    LoginRedirectReadsBack(message);
    DecodeStopsAtBadEscape(message, i);
  }

  const SpaceEscape := "%20"

  /** A provider message "%20" is shown as a single space. */
  lemma SpaceEscapeShownAsSpace()
    ensures BannerAsWritten(LoginError + Encode(SpaceEscape)) == Shown(" ")
    ensures BannerOf(LoginError + Encode(SpaceEscape)) == Shown(SpaceEscape)
  {
    assert Encode(" ") == SpaceEscape by {
      assert Encode(" ") == EncodeChar(' ') + Encode("");
      assert Percent(32) == ['%', HexDigit(2), HexDigit(0)];
    }
    EncodedMessageShownDecoded(" ");
  }

  const PercentFailed := "100% failed"

  /** A provider message "100% failed" makes the form throw instead of showing it. */
  lemma PercentFailedThrows()
    ensures BannerAsWritten(LoginError + Encode(PercentFailed)) == DecodeThrows
    ensures BannerOf(LoginError + Encode(PercentFailed)) == Shown(PercentFailed)
  {
    assert PercentFailed[3] == '%' && PercentFailed[4] == ' ';
    BadPercentThrows(PercentFailed, 3);
  }
}
