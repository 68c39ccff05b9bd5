/** `initActiveNav`: which bottom-navigation item is highlighted for the page's path. */
module Nav {
  import opened Js

  const DefaultPage: string := "home.html"

  /** `window.location.pathname.split('/').pop() || 'home.html'`. */
  function CurrentPath(pathname: string): (r: string)
    ensures r != "" && '/' !in r
    ensures LastSegment(pathname, '/') != "" ==> r == LastSegment(pathname, '/')
    ensures LastSegment(pathname, '/') == "" ==> r == DefaultPage
  {
    var seg := LastSegment(pathname, '/');
    LastSegmentShape(pathname, '/');
    if seg != "" then seg else DefaultPageHasNoSlash(); DefaultPage
  }

  lemma DefaultPageHasNoSlash()
    ensures '/' !in DefaultPage
  {
  }

  /** A navigation item: the text of its `.nav-label` element (`None` when it has none) and its
      `href` attribute (`None` when absent). */
  datatype NavItem = NavItem(labelText: Option<string>, href: Option<string>)

  /** `label ? label.textContent.toLowerCase() : ''`. */
  function LabelKey(item: NavItem): string {
    match item.labelText
    case Some(text) => ToLower(text)
    case None => ""
  }

  /** `href.replace('.html', '')`: the href with its first `.html` removed. */
  function HrefKey(href: string): string {
    ReplaceFirst(href, ".html", "")
  }

  /** The item is active when the path contains its lower-cased label, or it has a non-empty
      href whose `.html`-less form the path contains. */
  predicate IsActive(path: string, item: NavItem) {
    Includes(path, LabelKey(item)) || (Truthy(item.href) && Includes(path, HrefKey(item.href.value)))
  }

  /** The two ways an item becomes active, each stated as an occurrence in the path. */
  lemma ActiveIff(path: string, item: NavItem)
    ensures IsActive(path, item) <==>
      (exists k :: OccursAt(path, LabelKey(item), k))
      || (Truthy(item.href) && exists k :: OccursAt(path, HrefKey(item.href.value), k))
  {
    IncludesIff(path, LabelKey(item));
    if Truthy(item.href) {
      IncludesIff(path, HrefKey(item.href.value));
    }
  }

  /** An item without a label has the empty string as its key, which every path contains: it is
      active on every page. */
  lemma MissingLabelAlwaysActive(path: string, href: Option<string>)
    ensures IsActive(path, NavItem(None, href))
  {
    IncludesIff(path, "");
  }

  /** The `.html` suffix of an href is what is removed. */
  lemma HrefKeyStripsSuffix(page: string)
    requires !Includes(page, ".html")
    ensures HrefKey(page + ".html") == page
  {
    HtmlFirstAtSuffix(page);
    AppendParts(page, ".html");
  }

  /** When `page` has no `.html`, the first `.html` of `page + ".html"` is the appended one. */
  lemma HtmlFirstAtSuffix(page: string)
    requires !Includes(page, ".html")
    ensures IndexOf(page + ".html", ".html") == |page|
  {
    AppendParts(page, ".html");
    IndexOfAtMost(page + ".html", ".html", |page|);
    NoHtmlInside(page);
    NoHtmlAcross(page);
  }

  /** An occurrence lying inside `page` would be one of `page` itself. */
  lemma NoHtmlInside(page: string)
    requires !Includes(page, ".html")
    ensures forall i :: 0 <= i && i + 5 <= |page| ==> !OccursAt(page + ".html", ".html", i)
  {
    forall i | 0 <= i && i + 5 <= |page|
      ensures !OccursAt(page + ".html", ".html", i)
    {
      assert (page + ".html")[i..i + 5] == page[i..i + 5];
      if OccursAt(page, ".html", i) {
        IncludesIff(page, ".html");
      }
    }
  }

  /** No occurrence straddles the end of `page`: it would need a dot where `.html` has none. */
  lemma NoHtmlAcross(page: string)
    ensures forall i :: 0 <= i < |page| < i + 5 ==> !OccursAt(page + ".html", ".html", i)
  {
    var s := page + ".html";
    forall i | 0 <= i < |page| < i + 5
      ensures !OccursAt(s, ".html", i)
    {
      var d := |page| - i;
      SliceAt(s, i, i + 5, d);
      SliceAt(s, |page|, |page| + 5, 0);
      AppendParts(page, ".html");
      NoDotInHtmlTail(d);
    }
  }

  /** Past its first character, `.html` holds no dot. */
  lemma NoDotInHtmlTail(d: int)
    ensures 1 <= d < 5 ==> ".html"[d] != '.'
  {
  }

  lemma AppendParts(a: string, b: string)
    ensures (a + b)[..|a|] == a && (a + b)[|a|..|a| + |b|] == b && (a + b)[|a| + |b|..] == ""
  {
  }

  lemma SliceAt(s: string, lo: int, hi: int, k: int)
    ensures 0 <= lo <= hi <= |s| && 0 <= k < hi - lo ==> s[lo..hi][k] == s[lo + k]
  {
  }

  /** The last segment of a path is what follows its last separator. */
  lemma {:induction false} LastSegmentAfterSep(dir: string, name: string, sep: char)
    requires sep !in name
    ensures LastSegment(dir + [sep] + name, sep) == name
    decreases |name|
  {
    var s := dir + [sep] + name;
    if name != "" {
      var p := name[..|name| - 1];
      LastSegmentAfterSep(dir, p, sep);
      assert s[..|s| - 1] == dir + [sep] + p;
    }
  }

  /** An item with a non-empty label that the path contains is active whatever its href. */
  lemma LabelInPathActive(path: string, text: string, k: int, href: Option<string>)
    requires OccursAt(path, ToLower(text), k)
    ensures IsActive(path, NavItem(Some(text), href))
  {
    IncludesIff(path, ToLower(text));
  }

  /** The site's Share item (label `Share`, href `share.html`) is active on `/share.html`. */
  lemma ShareItemOnSharePage()
    ensures IsActive(CurrentPath("/share.html"), NavItem(Some("Share"), Some("share.html")))
  {
    LastSegmentAfterSep("", "share.html", '/');
    assert "" + ['/'] + "share.html" == "/share.html";
    assert ToLower("Share") == "share";
    LabelInPathActive("share.html", "Share", 0, Some("share.html"));
  }

  /** The site's root path reads as `home.html`, so the Home item is active there by its
      English label. */
  lemma HomeItemOnRoot()
    ensures CurrentPath("/") == DefaultPage
    ensures IsActive(CurrentPath("/"), NavItem(Some("Home"), Some("index.html")))
  {
    LastSegmentAfterSep("", "", '/');
    assert "" + ['/'] + "" == "/";
    assert ToLower("Home") == "home";
    LabelInPathActive("home.html", "Home", 0, Some("index.html"));
  }

  /** A non-empty string whose first character is nowhere in `s` does not occur in `s`. */
  lemma AbsentFirstChar(s: string, sub: string)
    requires sub != [] && sub[0] !in s
    ensures !Includes(s, sub)
  {
    IncludesIff(s, sub);
    forall k | 0 <= k && k + |sub| <= |s|
      ensures !OccursAt(s, sub, k)
    {
      assert s[k..k + |sub|][0] == s[k];
    }
  }

  /** The Hindi label of the Home item is unchanged by lower-casing. */
  lemma HindiHomeKey()
    ensures LabelKey(NavItem(Some("घर"), Some("index.html"))) == "घर"
  {
    var r := ToLower("घर");
    assert r[0] == 'घ' && r[1] == 'र';
  }

  /** The Home item's href key is `index`. */
  lemma IndexHrefKey()
    ensures HrefKey("index.html") == "index"
  {
    AbsentFirstChar("index", ".html");
    HrefKeyStripsSuffix("index");
    assert "index" + ".html" == "index.html";
  }

  /** An item is inactive on a path that holds neither the first letter of its label key nor
      that of its href key. */
  lemma InactiveWhenAbsent(path: string, item: NavItem)
    requires LabelKey(item) != [] && LabelKey(item)[0] !in path
    requires item.href.Some? && HrefKey(item.href.value) != [] && HrefKey(item.href.value)[0] !in path
    ensures !IsActive(path, item)
  {
    AbsentFirstChar(path, LabelKey(item));
    AbsentFirstChar(path, HrefKey(item.href.value));
  }

  /** `home.html` holds neither `घ` nor `i`. */
  lemma DefaultPageLetters()
    ensures 'घ' !in DefaultPage && 'i' !in DefaultPage
  {
  }

  /** Once the page is in Hindi the Home item's label reads `घर`, which has no letter case and
      does not occur in `home.html`, and its href key `index` does not occur either: on the root
      path no item is highlighted. */
  lemma HomeItemInactiveOnRootInHindi()
    ensures !IsActive(CurrentPath("/"), NavItem(Some("घर"), Some("index.html")))
  {
    LastSegmentAfterSep("", "", '/');
    assert "" + ['/'] + "" == "/";
    HindiHomeKey();
    IndexHrefKey();
    DefaultPageLetters();
    InactiveWhenAbsent(DefaultPage, NavItem(Some("घर"), Some("index.html")));
  }
}
