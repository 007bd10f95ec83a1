/** The client's article list and current position: `loadNews`, `render`,
    `nextArticle` and `prevArticle`. */
module Navigation {
  import opened Wrappers
  import opened Values
  import News
  import Gestures

  /** What `res.json()` of `/api/news` gave: null, an array of articles, or
      another object (the server's `{error: ...}` answer). */
  datatype Fetched = NullValue | ArticleList(items: seq<News.Article>) | ErrorObject

  /** `loadNews`'s request: it throws (network or decoding), or it decodes. */
  datatype NewsReply = LoadError | Loaded(value: Fetched)

  /** What the card container shows. */
  datatype View = Message(text: string) | Card(article: News.Article, pager: string)

  const NoArticlesText: string := "No articles available."
  const LoadFailedText: string := "Failed to load news."

  /** `if (index < length - 1) index++`. */
  function Advance(index: int, count: int): (r: int)
    ensures r == index + 1 <==> index < count - 1
    ensures r != index + 1 ==> r == index
    ensures 0 <= index < count ==> 0 <= r < count
  {
    if index < count - 1 then index + 1 else index
  }

  /** `if (index > 0) index--`. */
  function Retreat(index: int): (r: int)
    ensures r == index - 1 <==> index > 0
    ensures r != index - 1 ==> r == index
    ensures 0 <= index ==> 0 <= r <= index
  {
    if index > 0 then index - 1 else index
  }

  /** Going forward and back again returns to the same article, away from the ends. */
  lemma AdvanceRetreat(index: int, count: int)
    requires 0 <= index < count - 1
    ensures Retreat(Advance(index, count)) == index
    ensures Advance(Retreat(index + 1), count) == index + 1
  {
  }

  /** `(index+1) + ' / ' + articles.length`. */
  function Pager(index: nat, count: nat): (p: string)
    ensures p == Digits(index + 1) + " / " + Digits(count)
  {
    Decimal(index + 1) + " / " + Decimal(count)
  }

  class Feed {
    var articles: Fetched
    var index: int

    /** `articles.length` where it is a number; elsewhere every comparison with it is false. */
    function Count(): nat
      reads this
    {
      if articles.ArticleList? then |articles.items| else 0
    }

    /** `index` stays 0 on an empty list and within the list otherwise. */
    ghost predicate Valid()
      reads this
    {
      0 <= index && (index == 0 || index < Count())
    }

    constructor ()
      ensures Valid() && articles == ArticleList([]) && index == 0
    {
      articles := ArticleList([]);
      index := 0;
    }

    /** `render()`: the message for a null or empty list, the current card with its
        pager otherwise; None is the TypeError reading a field of `articles[index]`
        when `articles` is not an array. */
    function Render(): (v: Option<View>)
      reads this
      requires Valid()
      ensures (articles.NullValue? || articles == ArticleList([])) <==> v == Some(Message(NoArticlesText))
      ensures articles.ErrorObject? <==> v.None?
      ensures Count() > 0 ==> 0 <= index < Count() && v == Some(Card(articles.items[index], Pager(index, Count())))
    {
      match articles
      case NullValue => Some(Message(NoArticlesText))
      case ErrorObject => None
      case ArticleList(items) =>
        if |items| == 0 then Some(Message(NoArticlesText))
        else Some(Card(items[index], Pager(index, |items|)))
    }

    /** `loadNews()`: replaces the list and resets the position, then renders; a
        failure anywhere shows the failure message. */
    method LoadNews(reply: NewsReply) returns (v: View)
      requires Valid()
      modifies this
      ensures Valid()
      ensures reply.LoadError? ==> articles == old(articles) && index == old(index) && v == Message(LoadFailedText)
      ensures reply.Loaded? ==> articles == reply.value && index == 0
      ensures reply.Loaded? ==> v == if Render().Some? then Render().value else Message(LoadFailedText)
    {
      if reply.LoadError? {
        return Message(LoadFailedText);
      }
      articles := reply.value;
      index := 0;
      var shown := Render();
      v := if shown.Some? then shown.value else Message(LoadFailedText);
    }

    method NextArticle()
      requires Valid()
      modifies this`index
      ensures Valid()
      ensures index == Advance(old(index), Count())
    {
      if index < Count() - 1 {
        index := index + 1;
      }
    }

    method PrevArticle()
      requires Valid()
      modifies this`index
      ensures Valid()
      ensures index == Retreat(old(index))
    {
      if index > 0 {
        index := index - 1;
      }
    }

    /** What a card gesture does to the position; a tap opens the detail view
        and leaves the position alone. */
    method Perform(a: Gestures.Action)
      requires Valid()
      modifies this`index
      ensures Valid()
      ensures a == Gestures.ShowNext ==> index == Advance(old(index), Count())
      ensures a == Gestures.ShowPrevious ==> index == Retreat(old(index))
      ensures a != Gestures.ShowNext && a != Gestures.ShowPrevious ==> index == old(index)
    {
      if a == Gestures.ShowNext {
        NextArticle();
      } else if a == Gestures.ShowPrevious {
        PrevArticle();
      }
    }
  }
}
