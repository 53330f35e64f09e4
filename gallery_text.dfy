// The text the gallery application builds for the detail panel
// (js/main.js): the description markup and the WhatsApp link with its
// message template.

module GalleryText {
  import opened Common

  /** `pat` occurs in `s` starting at index `i`. */
  predicate OccursAt(s: string, pat: string, i: nat) {
    i + |pat| <= |s| && s[i..i + |pat|] == pat
  }

  /** The first occurrence of `pat` in `s` at or after `from`. */
  function FindFrom(s: string, pat: string, from: nat): (r: Option<nat>)
    requires from <= |s|
    ensures r.Some? ==> from <= r.value && OccursAt(s, pat, r.value)
    ensures r.Some? ==> forall j :: from <= j < r.value ==> !OccursAt(s, pat, j)
    ensures r.None? ==> forall j :: from <= j <= |s| ==> !OccursAt(s, pat, j)
    decreases |s| - from
  {
    if OccursAt(s, pat, from) then Some(from)
    else if from == |s| then None
    else FindFrom(s, pat, from + 1)
  }

  /** `k` is the first index where `pat` occurs in `s`. */
  predicate FirstOccurrence(s: string, pat: string, k: nat) {
    k <= |s| && OccursAt(s, pat, k) && forall j :: 0 <= j < k ==> !OccursAt(s, pat, j)
  }

  /**
   * `String.prototype.replace` with a string pattern: only the first
   * occurrence is replaced, and a string without one is returned as is.
   */
  function ReplaceFirst(s: string, pat: string, rep: string): (r: string)
    ensures (forall j :: 0 <= j <= |s| ==> !OccursAt(s, pat, j)) ==> r == s
    ensures forall k: nat :: FirstOccurrence(s, pat, k) ==> r == s[..k] + rep + s[k + |pat|..]
  {
    match FindFrom(s, pat, 0)
    case None => s
    case Some(k) =>
      assert forall k': nat :: FirstOccurrence(s, pat, k') ==> k' == k;
      s[..k] + rep + s[k + |pat|..]
  }

  /** A pattern whose first character is absent from `pre` is found right after `pre`. */
  lemma {:induction false} ReplaceAfterPrefix(pre: string, pat: string, post: string, rep: string)
    requires |pat| > 0 && pat[0] !in pre
    ensures ReplaceFirst(pre + pat + post, pat, rep) == pre + rep + post
  {
    var s := pre + pat + post;
    var k := |pre|;
    assert s[k..k + |pat|] == pat;
    forall j | 0 <= j < k
      ensures !OccursAt(s, pat, j)
    {
      assert s[j] == pre[j];
    }
    assert s[..k] == pre && s[k + |pat|..] == post;
  }

  /** `WHATSAPP_NUMBER`. */
  const WhatsAppNumber: string := "+5511999998888"

  /** `MESSAGE_TEMPLATE`, cut at its two placeholders. */
  const TemplateHead: string := "Olá! Adorei a arte \""
  const TitleSlot: string := "{title}"
  const TemplateMid: string := "\". Gostaria" + " de agendar" + " uma sessão." + " (Veja a" + " arte: "
  const ImageSlot: string := "{imageUrl}"
  const TemplateTail: string := ")"

  const MessageTemplate: string := TemplateHead + TitleSlot + TemplateMid + ImageSlot + TemplateTail

  /** The message: `{title}` replaced first, then `{imageUrl}` in the result. */
  function Message(title: string, imageUrl: string): string {
    ReplaceFirst(ReplaceFirst(MessageTemplate, TitleSlot, title), ImageSlot, imageUrl)
  }

  /** The fixed text of the template has no `{` outside its two placeholders. */
  lemma TemplateTextHasNoBrace()
    ensures '{' !in TemplateHead && '{' !in TemplateMid
  {
    assert '{' !in "\". Gostaria" && '{' !in " de agendar" && '{' !in " uma sessão.";
    assert '{' !in " (Veja a" && '{' !in " arte: ";
  }

  /** With no `{` in the title, both placeholders are filled where the template has them. */
  lemma MessageFillsSlots(title: string, imageUrl: string)
    requires '{' !in title
    ensures Message(title, imageUrl) == TemplateHead + title + TemplateMid + imageUrl + TemplateTail
  {
    TemplateTextHasNoBrace();
    assert MessageTemplate == TemplateHead + TitleSlot + (TemplateMid + ImageSlot + TemplateTail);
    ReplaceAfterPrefix(TemplateHead, TitleSlot, TemplateMid + ImageSlot + TemplateTail, title);
    var pre := TemplateHead + title + TemplateMid;
    assert TemplateHead + title + (TemplateMid + ImageSlot + TemplateTail) == pre + ImageSlot + TemplateTail;
    assert '{' !in pre by {
      forall i | 0 <= i < |pre|
        ensures pre[i] != '{'
      {
        if i < |TemplateHead| {
          assert pre[i] == TemplateHead[i];
        } else if i < |TemplateHead| + |title| {
          assert pre[i] == title[i - |TemplateHead|];
        } else {
          assert pre[i] == TemplateMid[i - |TemplateHead| - |title|];
        }
      }
    }
    ReplaceAfterPrefix(pre, ImageSlot, TemplateTail, imageUrl);
  }

  /**
   * A title that itself contains `{imageUrl}` takes the image URL, and the
   * template's own `{imageUrl}` is left in the message.
   */
  lemma TitleCanTakeImageSlot(imageUrl: string)
    ensures Message(ImageSlot, imageUrl)
            == TemplateHead + imageUrl + (TemplateMid + ImageSlot + TemplateTail)
  {
    TemplateTextHasNoBrace();
    assert TitleSlot[0] == '{' && ImageSlot[0] == '{';
    var rest := TemplateMid + ImageSlot + TemplateTail;
    assert MessageTemplate == TemplateHead + TitleSlot + rest;
    ReplaceAfterPrefix(TemplateHead, TitleSlot, rest, ImageSlot);
    ReplaceAfterPrefix(TemplateHead, ImageSlot, rest, imageUrl);
  }

  /** `art.whatsappImageUrl || window.location.href`: an empty URL counts as absent. */
  function ImageUrl(whatsappImageUrl: Option<string>, pageUrl: string): (r: string)
    ensures whatsappImageUrl.Some? && whatsappImageUrl.value != "" ==> r == whatsappImageUrl.value
    ensures whatsappImageUrl.None? || whatsappImageUrl.value == "" ==> r == pageUrl
  {
    if whatsappImageUrl.Some? && whatsappImageUrl.value != "" then whatsappImageUrl.value else pageUrl
  }

  const WhatsAppPrefix: string := "https://wa.me/" + WhatsAppNumber + "?text="

  /**
   * `createWhatsAppLink`: the wa.me link of the number with the encoded
   * message; `encode` stands for `encodeURIComponent`.
   */
  function WhatsAppLink(title: string, whatsappImageUrl: Option<string>, pageUrl: string,
                        encode: string -> string): string
  {
    WhatsAppPrefix + encode(Message(title, ImageUrl(whatsappImageUrl, pageUrl)))
  }

  /** The link always opens a chat with the number, carrying the filled-in message. */
  lemma LinkCarriesMessage(title: string, whatsappImageUrl: Option<string>, pageUrl: string,
                           encode: string -> string)
    requires '{' !in title
    ensures WhatsAppLink(title, whatsappImageUrl, pageUrl, encode)
            == WhatsAppPrefix + encode(TemplateHead + title + TemplateMid + ImageUrl(whatsappImageUrl, pageUrl) + TemplateTail)
  {
    MessageFillsSlots(title, ImageUrl(whatsappImageUrl, pageUrl));
  }

  /** `replace(/c/g, rep)`: every occurrence of the character `c` replaced by `rep`. */
  function ReplaceAll(s: string, c: char, rep: string): string
    decreases |s|
  {
    if s == [] then []
    else (if s[0] == c then rep else [s[0]]) + ReplaceAll(s[1..], c, rep)
  }

  /** When the replacement does not contain `c`, no `c` is left. */
  lemma {:induction false} ReplaceAllRemoves(s: string, c: char, rep: string)
    requires c !in rep
    ensures c !in ReplaceAll(s, c, rep)
    decreases |s|
  {
    if s != [] {
      ReplaceAllRemoves(s[1..], c, rep);
    }
  }

  /** A string without `c` is left as it is. */
  lemma {:induction false} ReplaceAllKeeps(s: string, c: char, rep: string)
    requires c !in s
    ensures ReplaceAll(s, c, rep) == s
    decreases |s|
  {
    if s != [] {
      assert s[0] in s;
      assert forall x :: x in s[1..] ==> x in s;
      ReplaceAllKeeps(s[1..], c, rep);
      assert [s[0]] + s[1..] == s;
    }
  }

  lemma {:induction false} ReplaceAllAppend(a: string, b: string, c: char, rep: string)
    ensures ReplaceAll(a + b, c, rep) == ReplaceAll(a, c, rep) + ReplaceAll(b, c, rep)
    decreases |a|
  {
    if a == [] {
      assert a + b == b;
    } else {
      var head := if a[0] == c then rep else [a[0]];
      assert (a + b)[0] == a[0] && (a + b)[1..] == a[1..] + b;
      ReplaceAllAppend(a[1..], b, c, rep);
      calc {
        ReplaceAll(a + b, c, rep);
        head + ReplaceAll(a[1..] + b, c, rep);
        head + (ReplaceAll(a[1..], c, rep) + ReplaceAll(b, c, rep));
        (head + ReplaceAll(a[1..], c, rep)) + ReplaceAll(b, c, rep);
      }
    }
  }

  const Bullet: char := '•'
  const Dash: char := '—'
  const Arrow: char := '→'
  const Check: char := '✓'

  function Span(c: char): string {
    "<span>" + [c] + "</span>"
  }

  /** The description markup as the chain of five global replaces computes it. */
  function DescriptionHtml(s: string): string {
    ReplaceAll(ReplaceAll(ReplaceAll(ReplaceAll(ReplaceAll(s, Bullet, Span(Bullet)),
      Dash, Span(Dash)), Arrow, Span(Arrow)), Check, Span(Check)), '\n', "<br>")
  }

  /** The markup of one character: the four symbols wrapped in a span, a newline as a break. */
  function MarkupChar(c: char): string {
    if c == Bullet || c == Dash || c == Arrow || c == Check then Span(c)
    else if c == '\n' then "<br>"
    else [c]
  }

  /** The markup character by character, independent of the order of the replaces. */
  function Markup(s: string): string
    decreases |s|
  {
    if s == [] then [] else MarkupChar(s[0]) + Markup(s[1..])
  }

  /** The chain of replaces distributes over concatenation. */
  lemma DescriptionAppend(a: string, b: string)
    ensures DescriptionHtml(a + b) == DescriptionHtml(a) + DescriptionHtml(b)
  {
    var r1a, r1b := ReplaceAll(a, Bullet, Span(Bullet)), ReplaceAll(b, Bullet, Span(Bullet));
    ReplaceAllAppend(a, b, Bullet, Span(Bullet));
    var r2a, r2b := ReplaceAll(r1a, Dash, Span(Dash)), ReplaceAll(r1b, Dash, Span(Dash));
    ReplaceAllAppend(r1a, r1b, Dash, Span(Dash));
    var r3a, r3b := ReplaceAll(r2a, Arrow, Span(Arrow)), ReplaceAll(r2b, Arrow, Span(Arrow));
    ReplaceAllAppend(r2a, r2b, Arrow, Span(Arrow));
    var r4a, r4b := ReplaceAll(r3a, Check, Span(Check)), ReplaceAll(r3b, Check, Span(Check));
    ReplaceAllAppend(r3a, r3b, Check, Span(Check));
    ReplaceAllAppend(r4a, r4b, '\n', "<br>");
  }

  /** One replace on a one-character string. */
  lemma ReplaceAllOne(x: char, c: char, rep: string)
    ensures ReplaceAll([x], c, rep) == if x == c then rep else [x]
  {
    assert [x][1..] == [];
  }

  /** On a single character the chain gives that character's markup. */
  lemma DescriptionOfChar(c: char)
    ensures DescriptionHtml([c]) == MarkupChar(c)
  {
    var sb, sd, sa, sc := Span(Bullet), Span(Dash), Span(Arrow), Span(Check);
    assert Dash !in sb && Arrow !in sb && Check !in sb && '\n' !in sb;
    assert Arrow !in sd && Check !in sd && '\n' !in sd;
    assert Check !in sa && '\n' !in sa;
    assert '\n' !in sc;
    ReplaceAllOne(c, Bullet, sb);
    if c == Bullet {
      ReplaceAllKeeps(sb, Dash, sd);
      ReplaceAllKeeps(sb, Arrow, sa);
      ReplaceAllKeeps(sb, Check, sc);
      ReplaceAllKeeps(sb, '\n', "<br>");
      return;
    }
    ReplaceAllOne(c, Dash, sd);
    if c == Dash {
      ReplaceAllKeeps(sd, Arrow, sa);
      ReplaceAllKeeps(sd, Check, sc);
      ReplaceAllKeeps(sd, '\n', "<br>");
      return;
    }
    ReplaceAllOne(c, Arrow, sa);
    if c == Arrow {
      ReplaceAllKeeps(sa, Check, sc);
      ReplaceAllKeeps(sa, '\n', "<br>");
      return;
    }
    ReplaceAllOne(c, Check, sc);
    if c == Check {
      ReplaceAllKeeps(sc, '\n', "<br>");
      return;
    }
    ReplaceAllOne(c, '\n', "<br>");
  }

  /** The replace chain equals the character-by-character markup. */
  lemma {:induction false} DescriptionIsMarkup(s: string)
    ensures DescriptionHtml(s) == Markup(s)
    decreases |s|
  {
    if s != [] {
      assert s == [s[0]] + s[1..];
      DescriptionAppend([s[0]], s[1..]);
      DescriptionOfChar(s[0]);
      DescriptionIsMarkup(s[1..]);
    }
  }

  /** No raw line break survives: every newline has become `<br>`. */
  lemma NoRawNewline(s: string)
    ensures '\n' !in DescriptionHtml(s)
  {
    var r4 := ReplaceAll(ReplaceAll(ReplaceAll(ReplaceAll(s, Bullet, Span(Bullet)),
      Dash, Span(Dash)), Arrow, Span(Arrow)), Check, Span(Check));
    ReplaceAllRemoves(r4, '\n', "<br>");
  }
}
