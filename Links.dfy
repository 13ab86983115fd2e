/** The link handler of src/linkHandler.py: a link whose alias and URL are
    settled when it is made, a collection of links with a separator, and
    the layout of a collection as document runs. */
module Links {
  import opened Wrappers
  import opened Text

  const HTTPS: string := "https://"
  const MAILTO: string := "mailto:"
  const TEL: string := "tel:"
  const DEFAULT_SEPARATOR: string := " | "

  // ---- the alias and the URL ----

  /** The alias a link gets: the one given, else the URL without a leading
      `mailto:` or `tel:`, read before the URL is formatted. */
  function DefaultAlias(url: string, alias: Option<string>): string
  {
    match alias
    case Some(a) => a
    case None =>
      if StartsWith(url, MAILTO) then url[|MAILTO|..]
      else if StartsWith(url, TEL) then url[|TEL|..]
      else url
  }

  /** Without an alias, putting back the prefix that was stripped gives the
      URL as it was given. */
  lemma DefaultAliasRestores(url: string)
    ensures var a := DefaultAlias(url, None);
      || (StartsWith(url, MAILTO) && MAILTO + a == url)
      || (!StartsWith(url, MAILTO) && StartsWith(url, TEL) && TEL + a == url)
      || (!StartsWith(url, MAILTO) && !StartsWith(url, TEL) && a == url)
  {
    var a := DefaultAlias(url, None);
    if StartsWith(url, MAILTO) {
      assert url == url[..|MAILTO|] + url[|MAILTO|..];
    } else if StartsWith(url, TEL) {
      assert url == url[..|TEL|] + url[|TEL|..];
    }
  }

  /** `[\s.-]`. */
  predicate IsPhoneSeparator(c: char)
  {
    IsSpace(c) || c == '.' || c == '-'
  }

  predicate AllDigits(s: string)
  {
    forall i :: 0 <= i < |s| ==> IsDigit(s[i])
  }

  /** `(\+\d{1,2}\s?)?`: empty, or a plus, one or two digits and an optional
      space. */
  predicate CountryCode(p: string)
  {
    || |p| == 0
    || (|p| == 2 && p[0] == '+' && IsDigit(p[1]))
    || (|p| == 3 && p[0] == '+' && IsDigit(p[1]) && (IsDigit(p[2]) || IsSpace(p[2])))
    || (|p| == 4 && p[0] == '+' && IsDigit(p[1]) && IsDigit(p[2]) && IsSpace(p[3]))
  }

  /** `\(?\d{3}\)?[\s.-]\d{3}[\s.-]\d{4}` with the opening and closing
      parentheses present as `open` and `close` say. */
  predicate LocalNumber(t: string, open: bool, close: bool)
  {
    var a, b := if open then 1 else 0, if close then 1 else 0;
    && |t| == a + b + 12
    && (open ==> t[0] == '(')
    && AllDigits(t[a..a + 3])
    && (close ==> t[a + 3] == ')')
    && IsPhoneSeparator(t[a + b + 3])
    && AllDigits(t[a + b + 4..a + b + 7])
    && IsPhoneSeparator(t[a + b + 7])
    && AllDigits(t[a + b + 8..])
  }

  /** The URL is a phone number after a country code of `k` characters. */
  predicate PhoneFrom(url: string, k: nat)
  {
    k <= |url| && CountryCode(url[..k]) &&
    (LocalNumber(url[k..], false, false) || LocalNumber(url[k..], true, false) ||
     LocalNumber(url[k..], false, true) || LocalNumber(url[k..], true, true))
  }

  /** `re.fullmatch(r"^(\+\d{1,2}\s?)?\(?\d{3}\)?[\s.-]\d{3}[\s.-]\d{4}$", url)`,
      with `\d` the ASCII digits and `\s` Python's whitespace. */
  predicate IsPhone(url: string)
  {
    PhoneFrom(url, 0) || PhoneFrom(url, 2) || PhoneFrom(url, 3) || PhoneFrom(url, 4)
  }

  /** `re.sub(r'\D', '', url)`: the digits of the URL in order. */
  function Digits(s: string): (d: string)
    ensures AllDigits(d) && |d| <= |s|
    decreases |s|
  {
    if |s| == 0 then ""
    else (if IsDigit(s[0]) then [s[0]] else []) + Digits(s[1..])
  }

  /** The number a `tel:` URL dials: the digits, without the leading `1` of
      an eleven-digit number. */
  function Dialled(url: string): string
  {
    var digits := Digits(url);
    if |digits| == 11 && digits[0] == '1' then digits[1..] else digits
  }

  /** The URL already has one of the three schemes. */
  predicate HasPrefix(url: string)
  {
    StartsWith(url, HTTPS) || StartsWith(url, MAILTO) || StartsWith(url, TEL)
  }

  /** `set_formatted_url` as a function of the URL. */
  function FormatUrl(url: string): string
  {
    if HasPrefix(url) then url
    else if '@' in url && !StartsWith(url, MAILTO) then MAILTO + url
    else if IsPhone(url) then TEL + Dialled(url)
    else HTTPS + url
  }

  lemma PrefixStarts(p: string, s: string)
    ensures StartsWith(p + s, p)
  {
    assert (p + s)[..|p|] == p;
  }

  /** A URL with a scheme is left alone; an address gets `mailto:`, a phone
      number `tel:` and its digits, anything else `https://`; the result
      always has a scheme, so formatting again changes nothing. */
  lemma FormatUrlFacts(url: string)
    ensures HasPrefix(url) ==> FormatUrl(url) == url
    ensures !HasPrefix(url) && '@' in url ==> FormatUrl(url) == MAILTO + url
    ensures !HasPrefix(url) && '@' !in url && IsPhone(url) ==>
      FormatUrl(url) == TEL + Dialled(url) && AllDigits(Dialled(url))
    ensures !HasPrefix(url) && '@' !in url && !IsPhone(url) ==> FormatUrl(url) == HTTPS + url
    ensures HasPrefix(FormatUrl(url))
    ensures FormatUrl(FormatUrl(url)) == FormatUrl(url)
  {
    if !HasPrefix(url) {
      if '@' in url {
        PrefixStarts(MAILTO, url);
      } else if IsPhone(url) {
        PrefixStarts(TEL, Dialled(url));
      } else {
        PrefixStarts(HTTPS, url);
      }
    }
  }

  lemma LocalExample()
    ensures LocalNumber("(555) 123-4567", true, true)
  {
    var t := "(555) 123-4567";
    assert t[1..4] == "555" && t[6..9] == "123" && t[10..] == "4567";
  }

  lemma PhoneMatchExample()
    ensures IsPhone("+1 (555) 123-4567")
  {
    var url := "+1 (555) 123-4567";
    assert url[..3] == "+1 " && url[3..] == "(555) 123-4567";
    LocalExample();
    assert PhoneFrom(url, 3);
  }

  lemma NoSchemeExample()
    ensures !HasPrefix("+1 (555) 123-4567") && '@' !in "+1 (555) 123-4567"
  {
    var url := "+1 (555) 123-4567";
    assert url[0] == '+';
  }

  /** `"+1 (555) 123-4567"` is a phone number: it becomes a `tel:` URL of
      its dialled digits. */
  lemma PhoneExample()
    ensures IsPhone("+1 (555) 123-4567")
    ensures FormatUrl("+1 (555) 123-4567") == TEL + Dialled("+1 (555) 123-4567")
  {
    PhoneMatchExample();
    NoSchemeExample();
    FormatUrlFacts("+1 (555) 123-4567");
  }

  // ---- a link ----

  /** A link: what it is (`descriptor`), where it goes (`url`) and the text
      shown for it (`alias`). */
  class Link {
    var descriptor: string
    var url: string
    var alias: string

    /** `Link(...)` with `__post_init__`: the alias first, from the URL as
        given, then the URL formatted. */
    constructor (descriptor: string, url: string, alias: Option<string> := None)
      ensures this.descriptor == descriptor
      ensures this.alias == DefaultAlias(url, alias)
      ensures this.url == FormatUrl(url)
    {
      this.descriptor := descriptor;
      this.url := url;
      if alias.None? {
        if StartsWith(url, MAILTO) {
          this.alias := url[|MAILTO|..];
        } else if StartsWith(url, TEL) {
          this.alias := url[|TEL|..];
        } else {
          this.alias := url;
        }
      } else {
        this.alias := alias.value;
      }
      new;
      SetFormattedUrl();
    }

    /** `set_formatted_url`: gives the URL its scheme and touches nothing
        else. */
    method SetFormattedUrl()
      modifies this
      ensures url == FormatUrl(old(url))
      ensures descriptor == old(descriptor) && alias == old(alias)
    {
      if !(StartsWith(url, HTTPS) || StartsWith(url, MAILTO) || StartsWith(url, TEL)) {
        if '@' in url && !StartsWith(url, MAILTO) {
          url := MAILTO + url;
        } else if IsPhone(url) {
          var digits := Digits(url);
          if |digits| == 11 && digits[0] == '1' {
            digits := digits[1..];
          }
          url := TEL + digits;
        } else {
          url := HTTPS + url;
        }
      }
    }

    /** `get_display_text`. */
    function DisplayText(): string
      reads this
    {
      LinkText(descriptor, alias)
    }
  }

  /** The display text of a link with this descriptor and alias. */
  function LinkText(descriptor: string, alias: string): (t: string)
    ensures StartsWith(t, descriptor + ": ") && t[|descriptor| + 2..] == alias
  {
    PrefixStarts(descriptor + ": ", alias);
    descriptor + ": " + alias
  }

  /** A `links` entry of the document: `descriptor`, `url` and an optional
      `alias`. */
  datatype LinkData = LinkData(descriptor: string, url: string, alias: Option<string>)

  /** `Link.from_dict`. */
  method FromDict(data: LinkData) returns (link: Link)
    ensures fresh(link)
    ensures link.descriptor == data.descriptor
    ensures link.url == FormatUrl(data.url) && link.alias == DefaultAlias(data.url, data.alias)
  {
    link := new Link(data.descriptor, data.url, data.alias);
  }

  // ---- a collection of links ----

  /** The display texts of the first `n` links. */
  function Texts(links: seq<Link>, n: nat): (texts: seq<string>)
    requires n <= |links|
    reads links
    ensures |texts| == n
    ensures forall i :: 0 <= i < n ==> texts[i] == links[i].DisplayText()
  {
    if n == 0 then [] else Texts(links, n - 1) + [links[n - 1].DisplayText()]
  }

  class LinkCollection {
    var links: seq<Link>
    var separator: string

    constructor (separator: string := DEFAULT_SEPARATOR)
      ensures links == [] && this.separator == separator
    {
      links := [];
      this.separator := separator;
    }

    /** `add_link`: makes the link and appends it; returns the collection
        itself. */
    method AddLink(descriptor: string, url: string, alias: Option<string> := None) returns (self: LinkCollection)
      modifies this
      ensures self == this
      ensures |links| == |old(links)| + 1 && links[..|old(links)|] == old(links)
      ensures fresh(links[|links| - 1])
      ensures links[|links| - 1].descriptor == descriptor
      ensures links[|links| - 1].url == FormatUrl(url) && links[|links| - 1].alias == DefaultAlias(url, alias)
      ensures separator == old(separator)
    {
      var link := new Link(descriptor, url, alias);
      links := links + [link];
      assert links[..|old(links)|] == old(links);
      self := this;
    }

    /** `get_display_text`: nothing for no links, else the links' texts
        joined by the separator. */
    function DisplayText(): (t: string)
      reads this, links
      ensures |links| == 0 ==> t == ""
    {
      if |links| == 0 then "" else Join(Texts(links, |links|), separator)
    }
  }

  /** A collection's text is its one link's text when it holds one link,
      and otherwise as long as all link texts plus one separator between
      each neighbouring pair. */
  lemma CollectionText(c: LinkCollection)
    ensures |c.links| == 1 ==> c.DisplayText() == c.links[0].DisplayText()
    ensures |c.links| > 0 ==>
      |c.DisplayText()| == TotalLength(Texts(c.links, |c.links|)) + (|c.links| - 1) * |c.separator|
  {
    if |c.links| > 0 {
      var ts := Texts(c.links, |c.links|);
      JoinLength(ts, c.separator);
    }
  }

  /** `LinkCollection.from_list`: one fresh link per entry, in order. */
  method FromList(data: seq<LinkData>, separator: string := DEFAULT_SEPARATOR) returns (collection: LinkCollection)
    ensures fresh(collection) && collection.separator == separator
    ensures |collection.links| == |data|
    ensures forall i :: 0 <= i < |data| ==> fresh(collection.links[i])
    ensures forall i :: 0 <= i < |data| ==>
      && collection.links[i].descriptor == data[i].descriptor
      && collection.links[i].url == FormatUrl(data[i].url)
      && collection.links[i].alias == DefaultAlias(data[i].url, data[i].alias)
  {
    collection := new LinkCollection(separator);
    var i := 0;
    while i < |data|
      invariant 0 <= i <= |data|
      invariant fresh(collection) && collection.separator == separator
      invariant |collection.links| == i
      invariant forall k :: 0 <= k < i ==> fresh(collection.links[k])
      invariant forall k :: 0 <= k < i ==>
        && collection.links[k].descriptor == data[k].descriptor
        && collection.links[k].url == FormatUrl(data[k].url)
        && collection.links[k].alias == DefaultAlias(data[k].url, data[k].alias)
    {
      var link := FromDict(data[i]);
      collection.links := collection.links + [link];
      i := i + 1;
    }
  }

  // ---- runs for the document ----

  /** A run: the plain prefix, then the shown text and the target, which a
      separator run does not have. */
  type Run = (string, Option<string>, Option<string>)

  /** `format_for_docx`: the descriptor with its colon, the alias and the
      URL. */
  function LinkRun(link: Link): Run
    reads link
  {
    (link.descriptor + ": ", Some(link.alias), Some(link.url))
  }

  /** `format_collection_for_docx`: each link's run, with a separator run
      before every link but the first. */
  method FormatCollection(collection: LinkCollection) returns (result: seq<Run>)
    ensures |collection.links| == 0 ==> result == []
    ensures |collection.links| > 0 ==> |result| == 2 * |collection.links| - 1
    ensures forall i :: 0 <= i < |result| && i % 2 == 1 ==> result[i] == (collection.separator, None, None)
    ensures forall i :: 0 <= i < |result| && i % 2 == 0 ==> result[i] == LinkRun(collection.links[i / 2])
    ensures forall i :: 0 <= i < |result| ==> (result[i].1.None? <==> i % 2 == 1)
  {
    var links := collection.links;
    result := [];
    var i := 0;
    while i < |links|
      invariant 0 <= i <= |links|
      invariant |result| == (if i == 0 then 0 else 2 * i - 1)
      invariant forall k :: 0 <= k < |result| && k % 2 == 1 ==> result[k] == (collection.separator, None, None)
      invariant forall k :: 0 <= k < |result| && k % 2 == 0 ==> result[k] == LinkRun(links[k / 2])
    {
      if i > 0 {
        result := result + [(collection.separator, None, None)];
      }
      var prefix, display, url := links[i].descriptor + ": ", links[i].alias, links[i].url;
      result := result + [(prefix, Some(display), Some(url))];
      i := i + 1;
    }
  }
}
