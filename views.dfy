/** The list renderers: which strings each card shows for a stored record. The HTML
    around those strings is not modelled; a card is the tuple of values the
    template interpolates, and a rendered list is the sequence of cards in the
    order they appear in the container. */
module Views {
  import opened Js
  import opened Store

  /** A record's field, `undefined` when the record has no such field. */
  function Field(rec: Record, name: string): (r: Option<string>)
    ensures r.Some? <==> name in rec
    ensures r.Some? ==> r.value == rec[name]
  {
    if name in rec then Some(rec[name]) else None
  }

  function Min(a: nat, b: nat): nat {
    if a <= b then a else b
  }

  // ---------------------------------------------------------------------------
  // Stories

  const PreviewLength: nat := 60
  const MaxRecentStories: nat := 3

  /** `(story.content || '').substring(0, 60) + '...'`. */
  function Preview(content: Option<string>): string {
    Prefix(OrElse(content, ""), PreviewLength) + "..."
  }

  /** The preview is at most the first 60 characters of the content, then an ellipsis; a
      missing content previews as the ellipsis alone. */
  lemma PreviewShape(content: Option<string>)
    ensures var r := Preview(content);
      && |r| == Min(PreviewLength, |OrElse(content, "")|) + 3
      && r[..|r| - 3] <= OrElse(content, "")
      && r[|r| - 3..] == "..."
    ensures !Truthy(content) ==> Preview(content) == "..."
  {
    var r := Preview(content);
    assert r[..|r| - 3] == Prefix(OrElse(content, ""), PreviewLength);
  }

  /** `(story.author || 'U').charAt(0)`: the avatar letter. */
  function AvatarInitial(author: Option<string>): string {
    FirstChar(OrElse(author, "U"))
  }

  /** The values a story card shows. */
  datatype StoryCard = StoryCard(title: string, preview: string, initial: string, author: string, village: string)

  /** The card `renderRecentStories` builds for a story. */
  function StoryCardOf(story: Record): StoryCard {
    StoryCard(
      Show(Field(story, "title")),
      Preview(Field(story, "content")),
      AvatarInitial(Field(story, "author")),
      OrElse(Field(story, "author"), "Unknown"),
      OrElse(Field(story, "village"), ""))
  }

  /** The avatar letter is always the first letter of the name shown beside it: both fall back
      to a word starting with `U` when the author is missing or empty. */
  lemma AvatarMatchesAuthor(story: Record)
    ensures |StoryCardOf(story).initial| == 1
    ensures StoryCardOf(story).initial == FirstChar(StoryCardOf(story).author)
    ensures !Truthy(Field(story, "author")) ==> StoryCardOf(story).initial == "U" && StoryCardOf(story).author == "Unknown"
  {
    var c := StoryCardOf(story);
    var a := Field(story, "author");
    if Truthy(a) {
      assert c.author == a.value;
    } else {
      assert c.author == "Unknown" && c.initial == "U";
    }
  }

  /** What a story's copy button puts on the clipboard: `story.title + '\n\n' + (story.content || '')`. */
  function CopyText(story: Record): string {
    Show(Field(story, "title")) + "\n\n" + OrElse(Field(story, "content"), "")
  }

  /** The recent-stories container: whether the "no stories yet" paragraph is in it, the story
      each card shows (its values are `StoryCardOf` of that story), in display order, and for
      each card the story its copy button copies (`None` when the button has no click
      handler; a click puts `CopyText` of that story on the clipboard). */
  datatype StoriesView = StoriesView(placeholder: bool, cards: seq<Record>, copies: seq<Option<Record>>)
  {
    predicate Aligned() {
      |copies| == |cards|
    }
  }

  const BlankStories: StoriesView := StoriesView(false, [], [])

  /** `renderRecentStories` on the stored stories as evidently intended, with every copy button
      bound to its own story. */
  method RenderRecentStories(stories: seq<Record>) returns (v: StoriesView)
    ensures v.Aligned()
    ensures v.placeholder <==> |stories| == 0
    ensures v.cards == stories[..Min(MaxRecentStories, |stories|)]
    ensures forall i :: 0 <= i < |v.copies| ==> v.copies[i] == Some(stories[i])
  {
    if |stories| == 0 {
      return StoriesView(true, [], []);
    }
    var n := Min(MaxRecentStories, |stories|);
    v := BlankStories;
    var i := 0;
    while i < n
      invariant 0 <= i <= n
      invariant !v.placeholder && v.cards == stories[..i] && |v.copies| == i
      invariant forall j :: 0 <= j < i ==> v.copies[j] == Some(stories[j])
    {
      assert stories[..i + 1] == stories[..i] + [stories[i]];
      v := AppendStory(v, stories[i]);
      i := i + 1;
    }
  }

  /** `prependStoryToUI(story, false)` as evidently intended: the card goes last, its handler
      on its own button, and every earlier button keeps its handler. */
  function AppendStory(v: StoriesView, story: Record): StoriesView {
    StoriesView(v.placeholder, v.cards + [story], v.copies + [Some(story)])
  }

  /** `prependStoryToUI(story)` (to the top) as evidently intended: every existing button keeps
      its handler. The "no stories yet" paragraph, if present, stays below the new card. */
  function PrependStory(v: StoriesView, story: Record): StoriesView {
    StoriesView(v.placeholder, [story] + v.cards, [Some(story)] + v.copies)
  }

  /** The new card is on top and its button copies it; every card below keeps its place and
      its button's handler. */
  lemma PrependStoryKeeps(v: StoriesView, story: Record)
    requires v.Aligned()
    ensures var r := PrependStory(v, story);
      && r.Aligned() && r.placeholder == v.placeholder && |r.cards| == |v.cards| + 1
      && r.cards[0] == story && r.copies[0] == Some(story)
      && forall k :: 0 <= k < |v.cards| ==> r.cards[k + 1] == v.cards[k] && r.copies[k + 1] == v.copies[k]
  {
  }

  // --- The copy buttons as the script binds them -----------------------------

  /** As written, `container.innerHTML += html` (and `html + container.innerHTML`) re-parses
      the container, which drops every handler set before; the handler for the new story is
      then put on the FIRST copy button in the container. */
  function RebindFirst(cards: seq<Record>, story: Record): (copies: seq<Option<Record>>)
    requires |cards| >= 1
    ensures |copies| == |cards|
    ensures copies[0] == Some(story)
    ensures forall k :: 1 <= k < |copies| ==> copies[k].None?
  {
    [Some(story)] + seq(|cards| - 1, _ => None)
  }

  function AppendStoryAsWritten(v: StoriesView, story: Record): StoriesView {
    var cards := v.cards + [story];
    StoriesView(v.placeholder, cards, RebindFirst(cards, story))
  }

  function PrependStoryAsWritten(v: StoriesView, story: Record): StoriesView {
    var cards := [story] + v.cards;
    StoriesView(v.placeholder, cards, RebindFirst(cards, story))
  }

  /** As written, putting a story on top leaves a handler only on its own button: every card
      below keeps its place but loses its copy handler. */
  lemma PrependStoryAsWrittenDrops(v: StoriesView, story: Record)
    ensures var r := PrependStoryAsWritten(v, story);
      && r.Aligned() && r.placeholder == v.placeholder
      && r.cards == [story] + v.cards
      && r.copies[0] == Some(story)
      && forall k :: 1 <= k < |r.copies| ==> r.copies[k].None?
  {
  }

  /** A concrete case: a voice story B put on top of a card A whose button copies A. As written
      A's button then copies nothing; the intended prepend keeps it copying A. */
  lemma PrependCounterexample()
    ensures var a := map["title" := "A"];
      var b := map["title" := "B"];
      var v := StoriesView(false, [a], [Some(a)]);
      && PrependStoryAsWritten(v, b).copies == [Some(b), None]
      && PrependStory(v, b).copies == [Some(b), Some(a)]
  {
    var a := map["title" := "A"];
    var b := map["title" := "B"];
    var v := StoriesView(false, [a], [Some(a)]);
    var r := PrependStoryAsWritten(v, b);
    assert |r.copies| == 2 && r.copies[1].None?;
  }

  /** `slice(0, 3).forEach(story => prependStoryToUI(story, false))` as written. */
  function AppendAllAsWritten(v: StoriesView, shown: seq<Record>): StoriesView
    decreases |shown|
  {
    if shown == [] then v else AppendAllAsWritten(AppendStoryAsWritten(v, shown[0]), shown[1..])
  }

  function RenderRecentStoriesAsWritten(stories: seq<Record>): StoriesView {
    if |stories| == 0 then StoriesView(true, [], [])
    else AppendAllAsWritten(BlankStories, stories[..Min(MaxRecentStories, |stories|)])
  }

  /** What the recent-stories container shows after `renderRecentStories` as written: the
      placeholder exactly when there are no stories, else the first `min(3, n)` stories in stored
      order; only the top button has a handler, and it copies the last story shown. */
  predicate ShowsStoriesAsWritten(v: StoriesView, stories: seq<Record>) {
    var n := Min(MaxRecentStories, |stories|);
    && (v.placeholder <==> |stories| == 0)
    && v.Aligned() && v.cards == stories[..n]
    && (n > 0 ==> v.copies[0] == Some(stories[n - 1]))
    && forall k :: 1 <= k < |v.copies| ==> v.copies[k].None?
  }

  /** Rendering as written shows what `ShowsStoriesAsWritten` describes. */
  lemma RenderAsWrittenShows(stories: seq<Record>)
    ensures ShowsStoriesAsWritten(RenderRecentStoriesAsWritten(stories), stories)
  {
    if |stories| > 0 {
      AppendAllAsWrittenShape(BlankStories, stories[..Min(MaxRecentStories, |stories|)]);
    }
  }

  /** Appending as written shows the stories in order, but leaves a handler only on the top
      button, and that one copies the last story appended. */
  lemma {:induction false} AppendAllAsWrittenShape(v: StoriesView, shown: seq<Record>)
    requires shown != []
    ensures var r := AppendAllAsWritten(v, shown);
      && r.Aligned() && r.placeholder == v.placeholder
      && r.cards == v.cards + shown
      && r.copies[0] == Some(shown[|shown| - 1])
      && forall k :: 1 <= k < |r.copies| ==> r.copies[k].None?
    decreases |shown|
  {
    var w := AppendStoryAsWritten(v, shown[0]);
    if |shown| > 1 {
      AppendAllAsWrittenShape(w, shown[1..]);
      assert shown[1..][|shown[1..]| - 1] == shown[|shown| - 1];
      assert v.cards + [shown[0]] + shown[1..] == v.cards + shown;
    } else {
      assert AppendAllAsWritten(w, shown[1..]) == w;
      assert [shown[0]] == shown;
    }
  }

  /** As written, after rendering two or more stories only the top card's copy button works,
      and it copies the LAST story rendered, not the one on its card. */
  lemma CopyBindingAsWritten(stories: seq<Record>)
    requires |stories| >= 2
    ensures var v := RenderRecentStoriesAsWritten(stories);
      var last := Min(MaxRecentStories, |stories|) - 1;
      && v.Aligned() && |v.cards| == last + 1
      && v.cards[0] == stories[0]
      && v.copies[0] == Some(stories[last])
      && v.copies[1].None?
  {
    RenderAsWrittenShows(stories);
  }

  /** A concrete case: stories A then B. The top card shows A, but its button copies B. */
  lemma CopyBindingCounterexample()
    ensures var a := map["title" := "A", "content" := "first"];
      var b := map["title" := "B", "content" := "second"];
      var v := RenderRecentStoriesAsWritten([a, b]);
      && v.Aligned() && |v.cards| == 2
      && StoryCardOf(v.cards[0]).title == "A"
      && v.copies[0].Some? && CopyText(v.copies[0].value) == "B\n\nsecond"
      && v.copies[1] == None
  {
    var a := map["title" := "A", "content" := "first"];
    var b := map["title" := "B", "content" := "second"];
    CopyBindingAsWritten([a, b]);
    assert Field(a, "title") == Some("A");
    assert Field(b, "title") == Some("B") && Field(b, "content") == Some("second");
    assert CopyText(b) == "B" + "\n\n" + "second";
    assert "B" + "\n\n" + "second" == "B\n\nsecond";
    assert Min(MaxRecentStories, 2) - 1 == 1 && [a, b][1] == b;
  }

  // ---------------------------------------------------------------------------
  // Bazaar

  /** The values a product card shows; every field prefers the form's name and falls back to
      the legacy one. */
  datatype ProductCard = ProductCard(
    name: string, price: string, description: string,
    initial: string, seller: string, village: string, phone: string)

  const Rupee: string := "₹"

  /** The card `renderBazaarItems` builds for a product. */
  function ProductCardOf(p: Record): ProductCard {
    var seller := OrElse(Or(Field(p, "sellerName"), Field(p, "seller")), "Seller");
    ProductCard(
      Show(Or(Field(p, "productName"), Field(p, "name"))),
      Rupee + Show(Or(Field(p, "productPrice"), Field(p, "price"))),
      Show(Or(Field(p, "productDesc"), Field(p, "desc"))),
      FirstChar(OrElse(Or(Field(p, "sellerName"), Field(p, "seller")), "S")),
      seller,
      OrElse(Or(Field(p, "sellerVillage"), Field(p, "village")), ""),
      "tel:" + Show(Or(Field(p, "sellerContact"), Field(p, "contact"))))
  }

  /** Every product card has a seller whose first letter is its avatar, a price in rupees and
      a dialable contact link, whatever the record holds. */
  lemma ProductCardShape(p: Record)
    ensures var c := ProductCardOf(p);
      && c.seller != "" && |c.initial| == 1 && c.initial == FirstChar(c.seller)
      && |c.price| >= 1 && c.price[..1] == Rupee
      && |c.phone| >= 4 && c.phone[..4] == "tel:"
  {
    var c := ProductCardOf(p);
    var seller := Or(Field(p, "sellerName"), Field(p, "seller"));
    if Truthy(seller) {
      assert c.seller == seller.value;
    }
  }

  /** `${p.f || p.g}` after `prefix`: the form field `f` when it is non-empty, else the legacy
      field `g` as it is (even empty), else `undefined`. */
  predicate Interpolates(shown: string, prefix: string, p: Record, f: string, g: string) {
    && (Truthy(Field(p, f)) ==> shown == prefix + p[f])
    && (!Truthy(Field(p, f)) && g in p ==> shown == prefix + p[g])
    && (!Truthy(Field(p, f)) && g !in p ==> shown == prefix + "undefined")
  }

  /** `p.f || p.g || d`: the form field `f` when it is non-empty, else the legacy field `g` when
      it is non-empty, else the default `d`. */
  predicate Defaults(shown: string, p: Record, f: string, g: string, d: string) {
    && (Truthy(Field(p, f)) ==> shown == p[f])
    && (!Truthy(Field(p, f)) && Truthy(Field(p, g)) ==> shown == p[g])
    && (!Truthy(Field(p, f)) && !Truthy(Field(p, g)) ==> shown == d)
  }

  /** Every field of a product card prefers the form's name and falls back to the legacy one:
      name, price, description and contact show `undefined` when both are missing, the seller
      `Seller` (avatar `S`) and the village nothing. */
  lemma ProductFallbacks(p: Record)
    ensures var c := ProductCardOf(p);
      && Interpolates(c.name, "", p, "productName", "name")
      && Interpolates(c.price, Rupee, p, "productPrice", "price")
      && Interpolates(c.description, "", p, "productDesc", "desc")
      && Interpolates(c.phone, "tel:", p, "sellerContact", "contact")
      && Defaults(c.seller, p, "sellerName", "seller", "Seller")
      && (!Truthy(Field(p, "sellerName")) && !Truthy(Field(p, "seller")) ==> c.initial == "S")
      && Defaults(c.village, p, "sellerVillage", "village", "")
  {
  }

  /** A sell form submitted with a name and a price shows both on its card. */
  lemma SellFormCard(name: string, price: string, ts: string)
    requires name != "" && price != ""
    ensures var p := map["productName" := name, "productPrice" := price, "timestamp" := ts];
      ProductCardOf(p).name == name && ProductCardOf(p).price == Rupee + price
  {
    var p := map["productName" := name, "productPrice" := price, "timestamp" := ts];
    assert Field(p, "productName") == Some(name);
    assert Field(p, "productPrice") == Some(price);
  }

  /** The bazaar container shows one card per stored product, in stored order. */
  predicate ShowsProducts(cards: seq<ProductCard>, products: seq<Record>) {
    |cards| == |products| && forall i :: 0 <= i < |products| ==> cards[i] == ProductCardOf(products[i])
  }

  /** `renderBazaarItems`. */
  method RenderBazaarItems(products: seq<Record>) returns (cards: seq<ProductCard>)
    ensures ShowsProducts(cards, products)
  {
    cards := [];
    var i := 0;
    while i < |products|
      invariant 0 <= i <= |products| && |cards| == i
      invariant forall j :: 0 <= j < i ==> cards[j] == ProductCardOf(products[j])
    {
      cards := cards + [ProductCardOf(products[i])];
      i := i + 1;
    }
  }

  // ---------------------------------------------------------------------------
  // Community answers

  datatype AnswerCard = AnswerCard(text: string, initial: string, name: string, village: string)

  /** The card for an answer, or `None` when `(answer.answerName || answer.name).charAt(0)`
      throws because both names are missing (or the form's name is empty and the legacy one
      missing). */
  function AnswerCardOf(a: Record): (r: Option<AnswerCard>)
    ensures r.None? <==> !Truthy(Field(a, "answerName")) && "name" !in a
    ensures r.Some? ==> r.value.initial == FirstChar(r.value.name) && |r.value.initial| <= 1
    ensures r.Some? && Truthy(Field(a, "answerName")) ==> r.value.name == a["answerName"]
    ensures r.Some? && !Truthy(Field(a, "answerName")) ==> r.value.name == a["name"]
  {
    var name := Or(Field(a, "answerName"), Field(a, "name"));
    match name
    case None => None
    case Some(n) =>
      Some(AnswerCard(
        Show(Or(Field(a, "answerText"), Field(a, "text"))),
        FirstChar(n),
        n,
        Show(Or(Field(a, "answerVillage"), Field(a, "village")))))
  }

  /** The text and the village prefer the form's field when it is non-empty, fall back to the
      legacy field as it is, and show `undefined` when the record has neither: unlike a
      product's village, an answer's has no empty default. */
  lemma AnswerFallbacks(a: Record)
    requires AnswerCardOf(a).Some?
    ensures var c := AnswerCardOf(a).value;
      && Interpolates(c.text, "", a, "answerText", "text")
      && Interpolates(c.village, "", a, "answerVillage", "village")
  {
  }

  /** An answer form submitted with its name field left empty cannot be rendered. */
  lemma EmptyAnswerNameFails(text: string, village: string, ts: string)
    ensures var a := map["answerText" := text, "answerName" := "", "answerVillage" := village, "timestamp" := ts];
      AnswerCardOf(a).None?
  {
    var a := map["answerText" := text, "answerName" := "", "answerVillage" := village, "timestamp" := ts];
    assert Field(a, "answerName") == Some("");
    assert "name" !in a;
  }

  /** No stored answer makes its card throw. */
  predicate AllAnswersRender(answers: seq<Record>) {
    forall i :: 0 <= i < |answers| ==> AnswerCardOf(answers[i]).Some?
  }

  /** The answers container after `renderCommunityAnswers`: the cards of the answers in stored
      order, up to the first answer whose card throws; `completed` is false exactly when one
      threw, and then that answer is the one after the last card. */
  predicate ShowsAnswers(cards: seq<AnswerCard>, answers: seq<Record>, completed: bool) {
    && |cards| <= |answers|
    && (forall i :: 0 <= i < |cards| ==> AnswerCardOf(answers[i]) == Some(cards[i]))
    && (completed <==> |cards| == |answers|)
    && (!completed ==> AnswerCardOf(answers[|cards|]).None?)
    && (completed <==> AllAnswersRender(answers))
  }

  /** `renderCommunityAnswers`. */
  method RenderCommunityAnswers(answers: seq<Record>) returns (cards: seq<AnswerCard>, completed: bool)
    ensures ShowsAnswers(cards, answers, completed)
  {
    cards := [];
    var i := 0;
    while i < |answers|
      invariant 0 <= i <= |answers| && |cards| == i
      invariant forall j :: 0 <= j < i ==> AnswerCardOf(answers[j]) == Some(cards[j])
    {
      var card := AnswerCardOf(answers[i]);
      if card.None? {
        return cards, false;
      }
      cards := cards + [card.value];
      i := i + 1;
    }
    completed := true;
  }

  // ---------------------------------------------------------------------------
  // Audio list

  datatype AudioView = NoRecordings | Recordings(urls: seq<string>)

  /** The audio container shows "No recordings yet." exactly for an empty list, else one
      player per item in stored order (the item's time, formatted for the locale, is not
      modelled). */
  predicate ShowsAudio(v: AudioView, items: seq<Record>) {
    && (v.NoRecordings? <==> |items| == 0)
    && (v.Recordings? ==> |v.urls| == |items|)
    && (v.Recordings? ==> forall i :: 0 <= i < |items| ==> v.urls[i] == Show(Field(items[i], "url")))
  }

  /** `renderAudioList`. */
  method RenderAudioList(items: seq<Record>) returns (v: AudioView)
    ensures ShowsAudio(v, items)
  {
    if |items| == 0 {
      return NoRecordings;
    }
    var urls := [];
    var i := 0;
    while i < |items|
      invariant 0 <= i <= |items| && |urls| == i
      invariant forall j :: 0 <= j < i ==> urls[j] == Show(Field(items[j], "url"))
    {
      urls := urls + [Show(Field(items[i], "url"))];
      i := i + 1;
    }
    v := Recordings(urls);
  }
}
