/**
 * The checkout button: the label it shows for a subscription tier, and the
 * checkout-session request it sends with the stored bearer credential.
 */
module Subscribe {
  import opened JsStrings

  /** The label's fixed text; the capitalised tier follows it. */
  const LabelPrefix: string := "Subscribe to "

  predicate IsLowerAscii(c: char) {
    'a' <= c <= 'z'
  }

  /** `toUpperCase` on one character, for the ASCII range. */
  function UpperAscii(c: char): (u: char)
    ensures IsLowerAscii(c) ==> 'A' <= u <= 'Z' && u as int + 32 == c as int
    ensures !IsLowerAscii(c) ==> u == c
  {
    if IsLowerAscii(c) then (c as int - 32) as char else c
  }

  /**
   * `tier.charAt(0).toUpperCase() + tier.slice(1)`; on `""` both `charAt(0)`
   * and `slice(1)` are `""`.
   */
  function Capitalize(tier: string): (c: string)
    ensures |c| == |tier|
    ensures tier != [] ==> c[0] == UpperAscii(tier[0])
    ensures forall i :: 0 < i < |tier| ==> c[i] == tier[i]
  {
    if tier == [] then [] else [UpperAscii(tier[0])] + tier[1..]
  }

  /**
   * The button text: `Subscribe to ` and then the tier with its first
   * character upper-cased. It is one character per character of the tier
   * longer than the prefix, and it agrees with `Subscribe to ` + tier
   * everywhere except possibly at the first character of the tier.
   */
  function ButtonLabel(tier: string): (text: string)
    ensures |LabelPrefix| == 13 && |text| == 13 + |tier|
    ensures text[..13] == LabelPrefix
    ensures tier == [] ==> text == LabelPrefix
    ensures tier != [] ==> text[13] == UpperAscii(tier[0]) && !IsLowerAscii(text[13])
    ensures forall i :: 0 <= i < |text| && i != 13 ==> text[i] == (LabelPrefix + tier)[i]
  {
    LabelPrefix + Capitalize(tier)
  }

  /**
   * The label shows the tier verbatim exactly when the tier is empty or does
   * not start with a lower-case letter.
   */
  lemma ButtonLabelVerbatim(tier: string)
    ensures ButtonLabel(tier) == LabelPrefix + tier <==> (tier == [] || !IsLowerAscii(tier[0]))
  {
    if tier != [] {
      var text := ButtonLabel(tier);
      if text == LabelPrefix + tier {
        assert text[13] == tier[0];
      } else {
        assert Capitalize(tier) != tier;
      }
      assert tier == [tier[0]] + tier[1..];
    }
  }

  /** The landing page's tier, `premium`, is shown as `Subscribe to Premium`. */
  lemma ButtonLabelPremium(tier: string)
    requires tier == "premium"
    ensures ButtonLabel(tier) == "Subscribe to Premium"
  {
    assert UpperAscii('p') == 'P';
    assert tier[1..] == "remium";
  }

  /**
   * `${token}` in a template literal: the stored string, or "null" when
   * `localStorage.getItem` found nothing.
   */
  function TemplateText(stored: Option<string>): string {
    match stored
    case None => "null"
    case Some(t) => t
  }

  /** The header value `Bearer ${token}`. */
  function AuthorizationHeader(stored: Option<string>): (header: string)
    ensures StartsWith(header, "Bearer ")
    ensures |header| == 7 + |TemplateText(stored)|
    ensures header[7..] == TemplateText(stored)
  {
    "Bearer " + TemplateText(stored)
  }

  /** What a server reading the header takes as the credential. */
  function BearerCredential(header: string): Option<string> {
    if StartsWith(header, "Bearer ") then Some(header[7..]) else None
  }

  /** A stored token reaches the server unchanged. */
  lemma AuthorizationRoundTrip(token: string)
    ensures BearerCredential(AuthorizationHeader(Some(token))) == Some(token)
  {
    var header := AuthorizationHeader(Some(token));
    assert header[7..] == token;
  }

  /**
   * A missing token is sent as the literal credential `null`, which the
   * server cannot tell apart from a stored token spelled "null".
   */
  lemma MissingTokenSentAsNull()
    ensures AuthorizationHeader(None) == "Bearer null"
    ensures BearerCredential(AuthorizationHeader(None)) == Some("null")
    ensures AuthorizationHeader(None) == AuthorizationHeader(Some("null"))
  {
    assert AuthorizationHeader(None)[7..] == "null";
  }

  /** The checkout endpoint the button posts to. */
  const CheckoutUrl: string := "http://localhost:3000/api/create-checkout-session"

  /** The POST that `handleSubscribe` sends: endpoint, JSON body `{ tier }`, and header. */
  datatype CheckoutRequest = CheckoutRequest(url: string, tier: string, authorization: string)

  /**
   * The request is built whatever is stored: a missing credential does not
   * block it. It carries the tier unchanged and presents, as its bearer
   * credential, the stored token or the text "null".
   */
  function CheckoutRequestFor(tier: string, stored: Option<string>): (req: CheckoutRequest)
    ensures req.url == CheckoutUrl && req.tier == tier
    ensures BearerCredential(req.authorization) == Some(TemplateText(stored))
  {
    var header := AuthorizationHeader(stored);
    assert header[7..] == TemplateText(stored);
    CheckoutRequest(CheckoutUrl, tier, header)
  }
}
