/**
 * Assembly of the message text: the title, the description after a blank
 * line, and, when a link is given, an HTML "详情：" footer followed by the
 * bare link, after which every JSON-escaped slash `\/` is turned back into `/`.
 */
module Formatting {
  import opened Wrappers
  import opened Strings

  /** The two characters `\/`: a slash as JSON encoders may escape it. */
  const EscapedSlash: string := "\\/"

  /** `unescape_url`: every `\/`, scanning left to right, becomes `/`. */
  function UnescapeUrl(escapedUrl: string): string
  {
    ReplaceAll(escapedUrl, EscapedSlash, "/")
  }

  /** How a JSON encoder that escapes slashes writes a string: `/` becomes `\/`. */
  function EscapeSlashes(s: string): string
  {
    if s == [] then []
    else (if s[0] == '/' then EscapedSlash else [s[0]]) + EscapeSlashes(s[1..])
  }

  /** `a + b` does not put a backslash of `a` right before a slash of `b`. */
  predicate Joinable(a: string, b: string)
  {
    !(a != [] && b != [] && a[|a| - 1] == '\\' && b[0] == '/')
  }

  /** One step of the left-to-right scan of `UnescapeUrl`. */
  lemma UnescapeStep(s: string)
    ensures s == [] ==> UnescapeUrl(s) == []
    ensures EscapedSlash <= s ==> UnescapeUrl(s) == "/" + UnescapeUrl(s[2..])
    ensures s != [] && !(EscapedSlash <= s) ==> UnescapeUrl(s) == [s[0]] + UnescapeUrl(s[1..])
  {
  }

  /**
   * Unescaping never lengthens the text, and keeps its length exactly when
   * there is no `\/` in it.
   */
  lemma {:induction false} UnescapeLength(s: string)
    ensures |UnescapeUrl(s)| <= |s|
    ensures |UnescapeUrl(s)| == |s| <==> !Contains(s, EscapedSlash)
    decreases |s|
  {
    UnescapeStep(s);
    if EscapedSlash <= s {
      UnescapeLength(s[2..]);
    } else if s != [] {
      UnescapeLength(s[1..]);
    }
  }

  /** A text without `\/` is returned unchanged. */
  lemma UnescapeIdentity(s: string)
    requires !Contains(s, EscapedSlash)
    ensures UnescapeUrl(s) == s
  {
    ReplaceAbsent(s, EscapedSlash, "/");
  }

  /** A text without backslashes is returned unchanged. */
  lemma {:induction false} UnescapeNoBackslash(s: string)
    requires forall i :: 0 <= i < |s| ==> s[i] != '\\'
    ensures UnescapeUrl(s) == s
    decreases |s|
  {
    UnescapeStep(s);
    if s != [] {
      UnescapeNoBackslash(s[1..]);
      assert s == [s[0]] + s[1..];
    }
  }

  /** `s` starts with `\/`. */
  lemma StartsEscaped(s: string)
    ensures EscapedSlash <= s <==> |s| >= 2 && s[0] == '\\' && s[1] == '/'
  {
    if |s| >= 2 && s[0] == '\\' && s[1] == '/' {
      assert s[..2] == EscapedSlash;
    }
  }

  /** Unescaping distributes over a concatenation that creates no new `\/`. */
  lemma {:induction false} UnescapeConcat(a: string, b: string)
    requires Joinable(a, b)
    ensures UnescapeUrl(a + b) == UnescapeUrl(a) + UnescapeUrl(b)
    decreases |a|
  {
    if a == [] {
      assert a + b == b;
    } else if EscapedSlash <= a {
      UnescapeConcat(a[2..], b);
      UnescapeConcatEscaped(a, b);
    } else {
      UnescapeConcat(a[1..], b);
      UnescapeConcatPlain(a, b);
    }
  }

  lemma UnescapeConcatEscaped(a: string, b: string)
    requires EscapedSlash <= a
    requires UnescapeUrl(a[2..] + b) == UnescapeUrl(a[2..]) + UnescapeUrl(b)
    ensures UnescapeUrl(a + b) == UnescapeUrl(a) + UnescapeUrl(b)
  {
    var ab := a + b;
    assert EscapedSlash <= ab;
    assert ab[2..] == a[2..] + b;
    UnescapeStep(a);
    UnescapeStep(ab);
  }

  lemma UnescapeConcatPlain(a: string, b: string)
    requires a != [] && !(EscapedSlash <= a) && Joinable(a, b)
    requires UnescapeUrl(a[1..] + b) == UnescapeUrl(a[1..]) + UnescapeUrl(b)
    ensures UnescapeUrl(a + b) == UnescapeUrl(a) + UnescapeUrl(b)
  {
    var ab := a + b;
    StartsEscaped(a);
    StartsEscaped(ab);
    assert !(EscapedSlash <= ab);
    assert ab[1..] == a[1..] + b;
    UnescapeStep(a);
    UnescapeStep(ab);
  }

  /**
   * Unescaping repairs a link that was JSON-encoded with escaped slashes:
   * it is the inverse of `EscapeSlashes`.
   */
  lemma {:induction false} UnescapeRepairsEscaped(s: string)
    ensures UnescapeUrl(EscapeSlashes(s)) == s
    decreases |s|
  {
    if s != [] {
      var head := if s[0] == '/' then EscapedSlash else [s[0]];
      assert EscapeSlashes(s) == head + EscapeSlashes(s[1..]);
      EscapedNeverStartsWithSlash(s[1..]);
      if s[0] == '/' {
        UnescapeConcat(head, EscapeSlashes(s[1..]));
        UnescapeStep(head);
        UnescapeStep(head[2..]);
      } else {
        UnescapeConcat(head, EscapeSlashes(s[1..]));
        UnescapeStep(head);
        UnescapeStep(head[1..]);
      }
      UnescapeRepairsEscaped(s[1..]);
      assert s == [s[0]] + s[1..];
    }
  }

  /** An escaped text never starts with a bare slash. */
  lemma EscapedNeverStartsWithSlash(s: string)
    ensures EscapeSlashes(s) == [] || EscapeSlashes(s)[0] != '/'
  {
  }

  /** The footer appended when a link is given: an HTML anchor, then the bare link. */
  function Footer(link: string): string
  {
    "\n\n<a href=\"" + link + "\">详情：</a>" + link
  }

  /** The title, followed by a blank line and the description when the description is truthy. */
  function BaseText(title: string, desp: Option<string>): string
  {
    if Truthy(desp) then title + "\n\n" + desp.value else title
  }

  /** The text sent for a message: the base text, plus the footer and unescaping when a link is given. */
  function MessageText(title: string, desp: Option<string>, url: Option<string>): string
  {
    if Truthy(url) then UnescapeUrl(BaseText(title, desp) + Footer(url.value))
    else BaseText(title, desp)
  }

  /** A fixed piece of text that unescaping leaves alone and that cannot pair with its neighbours. */
  predicate Inert(piece: string)
  {
    piece != [] && piece[0] != '/' && forall i :: 0 <= i < |piece| ==> piece[i] != '\\'
  }

  /** Unescaping a link framed by inert pieces only unescapes the base text and the link. */
  lemma {:induction false} UnescapeFramed(base: string, open: string, link: string, close: string)
    requires Inert(open) && Inert(close)
    ensures UnescapeUrl(base + open + link + close + link) ==
      UnescapeUrl(base) + open + UnescapeUrl(link) + close + UnescapeUrl(link)
  {
    var withOpen := base + open;
    var withLink := withOpen + link;
    var withClose := withLink + close;
    UnescapeNoBackslash(open);
    UnescapeNoBackslash(close);
    UnescapeConcat(base, open);
    assert Joinable(withOpen, link) by {
      assert withOpen[|withOpen| - 1] == open[|open| - 1];
    }
    UnescapeConcat(withOpen, link);
    UnescapeConcat(withLink, close);
    assert Joinable(withClose, link) by {
      assert withClose[|withClose| - 1] == close[|close| - 1];
    }
    UnescapeConcat(withClose, link);
  }

  /** The footer's fixed parts hold no backslash, so unescaping reaches only the base text and the link. */
  lemma UnescapeFooter(base: string, link: string)
    ensures UnescapeUrl(base + Footer(link)) == UnescapeUrl(base) + Footer(UnescapeUrl(link))
  {
    var open, close := "\n\n<a href=\"", "\">详情：</a>";
    assert base + Footer(link) == base + open + link + close + link;
    UnescapeFramed(base, open, link, close);
  }

  /**
   * With a link, the text is the unescaped base text followed by the footer
   * built from the unescaped link: the escaped slashes of the link are
   * repaired both in the anchor and in the bare link, and the text ends with
   * the repaired link.
   */
  lemma MessageTextWithLink(title: string, desp: Option<string>, url: Option<string>)
    requires Truthy(url)
    ensures MessageText(title, desp, url) ==
      UnescapeUrl(BaseText(title, desp)) + Footer(UnescapeUrl(url.value))
  {
    UnescapeFooter(BaseText(title, desp), url.value);
  }

  /**
   * When neither title, description nor link holds `\/`, the text is exactly
   * the title, the description after a blank line when truthy, and the
   * footer when the link is truthy.
   */
  lemma MessageTextVerbatim(title: string, desp: Option<string>, url: Option<string>)
    requires !Contains(title, EscapedSlash)
    requires desp.Some? ==> !Contains(desp.value, EscapedSlash)
    requires url.Some? ==> !Contains(url.value, EscapedSlash)
    ensures MessageText(title, desp, url) ==
      (if Truthy(desp) then title + "\n\n" + desp.value else title) +
      (if Truthy(url) then Footer(url.value) else "")
  {
    var base := BaseText(title, desp);
    if Truthy(url) {
      MessageTextWithLink(title, desp, url);
      UnescapeIdentity(url.value);
      UnescapeIdentity(title);
      if Truthy(desp) {
        UnescapeConcat(title + "\n\n", desp.value);
        UnescapeConcat(title, "\n\n");
        UnescapeNoBackslash("\n\n");
        UnescapeIdentity(desp.value);
      }
    } else {
      assert base + "" == base;
    }
  }

  /** The link words the link-repair pattern captures: its one group is the scheme. */
  predicate IsScheme(word: string)
  {
    word == "https" || word == "http" || word == "ftp"
  }

  /** A `re.findall` oracle for the link-repair pattern: every capture it returns is a scheme word. */
  ghost predicate CapturesSchemes(findLinks: string -> seq<string>)
  {
    forall text, word :: word in findLinks(text) ==> IsScheme(word)
  }

  /**
   * The step-by-step assembly of the text in `send_telegram_message`,
   * including the link-repair loop over the pattern's captures. Because the
   * captures are bare scheme words, that loop leaves the text as it is.
   */
  method AssembleText(title: string, desp: Option<string>, url: Option<string>,
                      findLinks: string -> seq<string>) returns (text: string)
    requires CapturesSchemes(findLinks)
    ensures text == MessageText(title, desp, url)
  {
    text := title;
    if Truthy(desp) {
      text := text + "\n\n" + desp.value;
    }
    var affectedUrls := findLinks(text);
    for n := 0 to |affectedUrls|
      invariant text == BaseText(title, desp)
    {
      var affectedUrl := affectedUrls[n];
      assert IsScheme(affectedUrl);
      var correctedUrl := ReplaceAll(affectedUrl, EscapedSlash, "/");
      UnescapeNoBackslash(affectedUrl);
      ReplaceBySelf(text, affectedUrl);
      text := ReplaceAll(text, affectedUrl, correctedUrl);
    }
    if Truthy(url) {
      text := text + "\n\n<a href=\"" + url.value + "\">详情：</a>";
      text := text + url.value;
      assert text == BaseText(title, desp) + Footer(url.value);
      text := UnescapeUrl(text);
    }
  }
}
