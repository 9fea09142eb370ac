/**
 * Model of www/js/components/mailto.js: the contact form turned into a
 * `mailto:` URI (RFC 6068, section 2).
 *
 * `encodeURIComponent` is the parameter `encode`.  The module also defines a
 * reader for the `mailto:` syntax of section 2 of RFC 6068
 * (`"mailto:" [ to ] [ hfields ]`, `hfields = "?" hfield *( "&" hfield )`,
 * `hfield = hfname "=" hfvalue`) to state what the built link means.
 */
module Mailto {
  import opened Wrappers

  const Recipient := "contact@haguehackers.nl"
  const Subject := "Contact Form Submission"
  const FormMissingWarning := "Contact form not found on the page."

  /** The body text composed from the three form fields. */
  function BodyText(name: string, email: string, message: string): string {
    "Name: " + name + "\nEmail: " + email + "\nMessage: " + message
  }

  /** The fixed start of every link: the scheme, the recipient and the `subject` field name. */
  const LinkPrefix := "mailto:" + Recipient + "?subject="

  /** The link the submit handler builds. */
  function MailtoLink(name: string, email: string, message: string, encode: string -> string): (link: string)
    ensures |link| >= |LinkPrefix| && link[..|LinkPrefix|] == LinkPrefix
  {
    var rest := encode(Subject) + "&body=" + encode(BodyText(name, email, message));
    assert (LinkPrefix + rest)[..|LinkPrefix|] == LinkPrefix;
    LinkPrefix + rest
  }

  /** One header field of a `mailto:` URI. */
  datatype HField = HField(name: string, value: string)

  /** A parsed `mailto:` URI: the `to` part and the header fields in order. */
  datatype MailtoUri = MailtoUri(to: string, hfields: seq<HField>)

  /** The first position of `c` in `s`, if any. */
  function IndexOf(s: string, c: char): (r: Option<nat>)
    ensures r.None? <==> c !in s
    ensures r.Some? ==> r.value < |s| && s[r.value] == c && c !in s[..r.value]
  {
    if |s| == 0 then None
    else if s[0] == c then Some(0)
    else match IndexOf(s[1..], c)
      case None => None
      case Some(k) => assert s[..k + 1] == [s[0]] + s[1..][..k]; Some(k + 1)
  }

  /** `s` cut at every `c` (as the ECMAScript `split` does): never empty, no piece holds `c`. */
  function SplitOn(s: string, c: char): (r: seq<string>)
    ensures |r| >= 1
    ensures forall k :: 0 <= k < |r| ==> c !in r[k]
    decreases |s|
  {
    match IndexOf(s, c)
    case None => [s]
    case Some(k) => [s[..k]] + SplitOn(s[k + 1..], c)
  }

  /** `hfname "=" hfvalue`: the name ends at the first `=`. */
  function ParseHField(s: string): Option<HField> {
    match IndexOf(s, '=')
    case None => None
    case Some(k) => Some(HField(s[..k], s[k + 1..]))
  }

  function ParseHFields(pieces: seq<string>): Option<seq<HField>> {
    if pieces == [] then Some([])
    else match ParseHField(pieces[0])
      case None => None
      case Some(f) =>
        match ParseHFields(pieces[1..])
        case None => None
        case Some(fs) => Some([f] + fs)
  }

  /** Read a URI as `"mailto:" [ to ] [ "?" hfield *( "&" hfield ) ]`. */
  function ParseMailto(uri: string): Option<MailtoUri> {
    if |uri| < 7 || uri[..7] != "mailto:" then None
    else
      var rest := uri[7..];
      match IndexOf(rest, '?')
      case None => Some(MailtoUri(rest, []))
      case Some(q) =>
        match ParseHFields(SplitOn(rest[q + 1..], '&'))
        case None => None
        case Some(fields) => Some(MailtoUri(rest[..q], fields))
  }

  lemma IndexOfAfter(a: string, c: char, b: string)
    requires c !in a
    ensures IndexOf(a + [c] + b, c) == Some(|a|)
  {
    var s := a + [c] + b;
    assert s[|a|] == c;
    assert s[..|a|] == a;
  }

  lemma SplitOnJoined(a: string, c: char, b: string)
    requires c !in a && c !in b
    ensures SplitOn(a + [c] + b, c) == [a, b]
  {
    var s := a + [c] + b;
    IndexOfAfter(a, c, b);
    assert s[..|a|] == a && s[|a| + 1..] == b;
  }

  lemma ParseHFieldOf(name: string, value: string)
    requires '=' !in name
    ensures ParseHField(name + "=" + value) == Some(HField(name, value))
  {
    IndexOfAfter(name, '=', value);
    var s := name + "=" + value;
    assert s[..|name|] == name && s[|name| + 1..] == value;
  }

  lemma ParseTwoHFields(f1: string, f2: string, h1: HField, h2: HField)
    requires ParseHField(f1) == Some(h1) && ParseHField(f2) == Some(h2)
    ensures ParseHFields([f1, f2]) == Some([h1, h2])
  {
    assert [f2][1..] == [];
    assert ParseHFields([]) == Some([]);
    assert [h2] + [] == [h2];
    assert ParseHFields([f2]) == Some([h2]);
    assert [f1, f2][1..] == [f2];
    assert [h1] + [h2] == [h1, h2];
  }

  /** Cutting `a + b` after `a` gives back the two parts. */
  lemma CutAfter(a: string, b: string)
    ensures |a + b| >= |a| && (a + b)[..|a|] == a && (a + b)[|a|..] == b
  {
  }

  /** Cutting `a + [c] + b` around the `c` gives back the two parts. */
  lemma CutAround(a: string, c: char, b: string)
    ensures (a + [c] + b)[..|a|] == a && (a + [c] + b)[|a| + 1..] == b
  {
  }

  lemma Regroup3(x: string, a: string, b: string, c: string)
    ensures x + a + b + c == x + (a + b + c)
  {
  }

  lemma Regroup7(x: string, a: string, b: string, c: string, d: string, e: string, f: string, g: string)
    ensures x + a + b + c + d + e + f + g == x + (a + b + c + d + e + f + g)
  {
  }

  /** A URI `mailto:to?query` reads back as `to` and the fields of `query` when `to` holds no `?`. */
  lemma ParseMailtoOf(to: string, query: string, fields: seq<HField>)
    requires '?' !in to && ParseHFields(SplitOn(query, '&')) == Some(fields)
    ensures ParseMailto("mailto:" + (to + "?" + query)) == Some(MailtoUri(to, fields))
  {
    CutAfter("mailto:", to + "?" + query);
    IndexOfAfter(to, '?', query);
    CutAround(to, '?', query);
  }

  /** The query `n1=v1&n2=v2` reads back as its two fields when the separators do not occur inside them. */
  lemma ParseQueryOfTwoFields(n1: string, v1: string, n2: string, v2: string)
    requires '=' !in n1 && '=' !in n2
    requires '&' !in n1 + "=" + v1 && '&' !in n2 + "=" + v2
    ensures ParseHFields(SplitOn(n1 + "=" + v1 + "&" + n2 + "=" + v2, '&')) == Some([HField(n1, v1), HField(n2, v2)])
  {
    var f1, f2 := n1 + "=" + v1, n2 + "=" + v2;
    Regroup3(f1 + "&", n2, "=", v2);
    SplitOnJoined(f1, '&', f2);
    ParseHFieldOf(n1, v1);
    ParseHFieldOf(n2, v2);
    ParseTwoHFields(f1, f2, HField(n1, v1), HField(n2, v2));
  }

  /** A URI `mailto:to?n1=v1&n2=v2` reads back as its parts when the separators do not occur inside them. */
  lemma ParseMailtoOfTwoFields(to: string, n1: string, v1: string, n2: string, v2: string)
    requires '?' !in to && '=' !in n1 && '=' !in n2
    requires '&' !in n1 + "=" + v1 && '&' !in n2 + "=" + v2
    ensures ParseMailto("mailto:" + to + "?" + n1 + "=" + v1 + "&" + n2 + "=" + v2)
      == Some(MailtoUri(to, [HField(n1, v1), HField(n2, v2)]))
  {
    var query := n1 + "=" + v1 + "&" + n2 + "=" + v2;
    ParseQueryOfTwoFields(n1, v1, n2, v2);
    ParseMailtoOf(to, query, [HField(n1, v1), HField(n2, v2)]);
    Regroup7("mailto:" + to + "?", n1, "=", v1, "&", n2, "=", v2);
    Regroup3("mailto:", to, "?", query);
  }

  /** The link with its separators and field names written out one by one. */
  lemma LinkSpelledOut(subject: string, body: string)
    ensures LinkPrefix + (subject + "&body=" + body)
      == "mailto:" + Recipient + "?" + "subject" + "=" + subject + "&" + "body" + "=" + body
  {
    assert "?subject=" == "?" + "subject" + "=";
    assert "&body=" == "&" + "body" + "=";
  }

  /**
   * When the encoder never emits `&` (as `encodeURIComponent` escapes it), the
   * link reads back as the recipient with exactly two header fields, `subject`
   * then `body`, holding the encoded subject and the encoded body text.
   */
  lemma MailtoLinkParses(name: string, email: string, message: string, encode: string -> string)
    requires forall s :: '&' !in encode(s)
    ensures ParseMailto(MailtoLink(name, email, message, encode))
      == Some(MailtoUri(Recipient, [HField("subject", encode(Subject)),
                                    HField("body", encode(BodyText(name, email, message)))]))
  {
    var subject, body := encode(Subject), encode(BodyText(name, email, message));
    assert '&' !in subject && '&' !in body;
    assert '&' !in "subject" + "=" + subject;
    assert '&' !in "body" + "=" + body;
    LinkSpelledOut(subject, body);
    ParseMailtoOfTwoFields(Recipient, "subject", subject, "body", body);
  }

  /**
   * With a decoder that inverts the encoder, the values read back from the
   * link are the fixed subject, whatever the form holds, and the composed body.
   */
  lemma MailtoLinkRoundTrip(name: string, email: string, message: string,
                            encode: string -> string, decode: string -> string)
    requires forall s :: '&' !in encode(s)
    requires forall s :: decode(encode(s)) == s
    ensures var parsed := ParseMailto(MailtoLink(name, email, message, encode));
      && parsed.Some? && parsed.value.to == Recipient && |parsed.value.hfields| == 2
      && decode(parsed.value.hfields[0].value) == "Contact Form Submission"
      && decode(parsed.value.hfields[1].value) == "Name: " + name + "\nEmail: " + email + "\nMessage: " + message
  {
    MailtoLinkParses(name, email, message, encode);
  }

  /** The contact page after `setupContactForm`. */
  class ContactForm {
    const submitHandler: bool
    const warnings: seq<string>
    var href: string

    /** `setupContactForm`: a submit listener when `#contactForm` exists, otherwise one warning. */
    constructor (hasForm: bool, href: string)
      ensures submitHandler == hasForm
      ensures warnings == if hasForm then [] else [FormMissingWarning]
      ensures this.href == href
    {
      submitHandler := hasForm;
      warnings := if hasForm then [] else [FormMissingWarning];
      this.href := href;
    }

    /**
     * A submit event with the given field values.  With the listener, default
     * submission is suppressed and the window navigates to the built link;
     * without it nothing in the model changes.
     */
    method Submit(name: string, email: string, message: string, encode: string -> string)
      returns (defaultPrevented: bool)
      modifies this
      ensures defaultPrevented == submitHandler
      ensures href == if submitHandler then MailtoLink(name, email, message, encode) else old(href)
    {
      defaultPrevented := false;
      if submitHandler {
        defaultPrevented := true;
        var subject := encode(Subject);
        var body := encode(BodyText(name, email, message));
        href := "mailto:" + Recipient + "?subject=" + subject + "&body=" + body;
      }
    }
  }
}
