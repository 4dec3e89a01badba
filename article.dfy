/**
 * The article categories and the article record the pages exchange with the
 * server, and the one filter two pages apply to lists of articles (dropping
 * every article with a given `_id`).
 */
module Article {

  /** The ten members of the `ArticleCategory` enum. */
  datatype ArticleCategory =
    | Technology | Health | Education | Lifestyle | Finance
    | Travel | Food | Sports | Entertainment | Science

  /** The string value each enum member stands for. */
  function Label(c: ArticleCategory): string
  {
    match c
    case Technology => "Technology"
    case Health => "Health"
    case Education => "Education"
    case Lifestyle => "Lifestyle"
    case Finance => "Finance"
    case Travel => "Travel"
    case Food => "Food"
    case Sports => "Sports"
    case Entertainment => "Entertainment"
    case Science => "Science"
  }

  /** The name each enum member is declared under. */
  function MemberName(c: ArticleCategory): string
  {
    match c
    case Technology => "TECHNOLOGY"
    case Health => "HEALTH"
    case Education => "EDUCATION"
    case Lifestyle => "LIFESTYLE"
    case Finance => "FINANCE"
    case Travel => "TRAVEL"
    case Food => "FOOD"
    case Sports => "SPORTS"
    case Entertainment => "ENTERTAINMENT"
    case Science => "SCIENCE"
  }

  /** The members in declaration order (`Object.values(ArticleCategory)`). */
  const AllCategories: seq<ArticleCategory> :=
    [Technology, Health, Education, Lifestyle, Finance, Travel, Food, Sports, Entertainment, Science]

  /** ASCII lower-casing of one character. */
  function LowerChar(c: char): (r: char)
    ensures 'A' <= c <= 'Z' ==> 'a' <= r <= 'z'
    ensures !('A' <= c <= 'Z') ==> r == c
  {
    if 'A' <= c <= 'Z' then (c as int + 32) as char else c
  }

  /** `value` is `name` with its first character kept and the rest lower-cased: `TECHNOLOGY`, `Technology`. */
  predicate CapitalisedFrom(value: string, name: string)
  {
    && |value| == |name| && name != []
    && value[0] == name[0]
    && forall k :: 1 <= k < |name| ==> value[k] == LowerChar(name[k])
  }

  /** The enum has exactly ten members, each listed once. */
  lemma CategoryCount()
    ensures |AllCategories| == 10
    ensures forall c :: c in AllCategories
    ensures forall i, j :: 0 <= i < j < |AllCategories| ==> AllCategories[i] != AllCategories[j]
  {
    forall c ensures c in AllCategories {
      match c
      case Technology => assert AllCategories[0] == c;
      case Health => assert AllCategories[1] == c;
      case Education => assert AllCategories[2] == c;
      case Lifestyle => assert AllCategories[3] == c;
      case Finance => assert AllCategories[4] == c;
      case Travel => assert AllCategories[5] == c;
      case Food => assert AllCategories[6] == c;
      case Sports => assert AllCategories[7] == c;
      case Entertainment => assert AllCategories[8] == c;
      case Science => assert AllCategories[9] == c;
    }
  }

  /** No two members share a value. */
  lemma LabelsDistinct(c: ArticleCategory, d: ArticleCategory)
    ensures Label(c) == Label(d) <==> c == d
  {
  }

  /** Each member's value is its capitalised name. */
  lemma LabelIsCapitalisedName(c: ArticleCategory)
    ensures CapitalisedFrom(Label(c), MemberName(c))
  {
  }

  /** `{ firstName, lastName }` of the article's author. */
  datatype Author = Author(firstName: string, lastName: string)

  /** One entry of `likes` or `dislikes`: `{ userId }`. */
  datatype Reaction = Reaction(userId: string)

  /**
   * `IArticle`. `blocks` is declared a number (a count); `blockedBy` holds the
   * ids of the users who blocked the article.
   */
  datatype Article = Article(
    id: string,
    title: string,
    description: string,
    images: seq<string>,
    tags: seq<string>,
    category: ArticleCategory,
    author: Author,
    likes: seq<Reaction>,
    dislikes: seq<Reaction>,
    blocks: nat,
    blockedBy: seq<string>)

  /** `articles.filter(article => article._id !== id)` */
  function WithoutId(articles: seq<Article>, id: string): (r: seq<Article>)
    ensures |r| <= |articles|
  {
    if articles == [] then []
    else (if articles[0].id == id then [] else [articles[0]]) + WithoutId(articles[1..], id)
  }

  /** The number of articles carrying `id`. */
  function CountWithId(articles: seq<Article>, id: string): nat
  {
    if articles == [] then 0
    else (if articles[0].id == id then 1 else 0) + CountWithId(articles[1..], id)
  }

  /** The filter keeps an article exactly when it was there and carries another id. */
  lemma {:induction false} WithoutIdMembers(articles: seq<Article>, id: string)
    ensures forall a :: a in WithoutId(articles, id) <==> a in articles && a.id != id
  {
    if articles != [] {
      WithoutIdMembers(articles[1..], id);
      assert articles == [articles[0]] + articles[1..];
    }
  }

  /**
   * The filter works article by article, so it keeps the order of the
   * articles it keeps: filtering a concatenation concatenates the filtered parts.
   */
  lemma {:induction false} WithoutIdAppend(a: seq<Article>, b: seq<Article>, id: string)
    ensures WithoutId(a + b, id) == WithoutId(a, id) + WithoutId(b, id)
  {
    if a == [] {
      assert a + b == b;
    } else {
      assert (a + b)[0] == a[0];
      assert (a + b)[1..] == a[1..] + b;
      WithoutIdAppend(a[1..], b, id);
    }
  }

  /** The list shrinks by exactly the number of articles carrying `id`. */
  lemma {:induction false} WithoutIdLength(articles: seq<Article>, id: string)
    ensures |WithoutId(articles, id)| == |articles| - CountWithId(articles, id)
    ensures CountWithId(articles, id) <= |articles|
  {
    if articles != [] {
      WithoutIdLength(articles[1..], id);
    }
  }

  /** A list without the id is left as it is. */
  lemma {:induction false} WithoutAbsentId(articles: seq<Article>, id: string)
    requires forall k :: 0 <= k < |articles| ==> articles[k].id != id
    ensures WithoutId(articles, id) == articles
  {
    if articles != [] {
      WithoutAbsentId(articles[1..], id);
    }
  }
}
