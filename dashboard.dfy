/**
 * The feed page: liking, disliking and blocking articles, and the selection
 * shown in the article modal. A handler changes the list only when the
 * server answered with `success`.
 */
module Dashboard {
  import opened Common
  import opened Article

  datatype ReactionKind = Like | Dislike

  /** `{ ...article, likes: [...article.likes, { userId }] }`, or the same for `dislikes`. */
  function Reacted(a: Article, kind: ReactionKind, userId: string): Article
  {
    match kind
    case Like => a.(likes := a.likes + [Reaction(userId)])
    case Dislike => a.(dislikes := a.dislikes + [Reaction(userId)])
  }

  /** `articles.map(article => article._id === articleId ? Reacted(article) : article)` */
  function WithReaction(articles: seq<Article>, articleId: string, kind: ReactionKind, userId: string)
    : (r: seq<Article>)
    ensures |r| == |articles|
  {
    if articles == [] then []
    else
      var head := if articles[0].id == articleId then Reacted(articles[0], kind, userId) else articles[0];
      [head] + WithReaction(articles[1..], articleId, kind, userId)
  }

  /**
   * Article by article: the ones carrying `articleId` gain exactly one
   * reaction of the given kind at the end of that list, all others are left
   * as they are, and the list keeps its length and order.
   */
  lemma {:induction false} WithReactionAt(articles: seq<Article>, articleId: string, kind: ReactionKind, userId: string, k: nat)
    requires k < |articles|
    ensures var r := WithReaction(articles, articleId, kind, userId);
      r[k] == if articles[k].id == articleId then Reacted(articles[k], kind, userId) else articles[k]
  {
    if k > 0 {
      WithReactionAt(articles[1..], articleId, kind, userId, k - 1);
    }
  }

  /**
   * A like adds one `{ userId }` to `likes` of the matching articles and
   * changes no other field, `dislikes` included; a dislike does the same to
   * `dislikes` and never touches `likes`.
   */
  lemma ReactionFields(articles: seq<Article>, articleId: string, kind: ReactionKind, userId: string, k: nat)
    requires k < |articles|
    ensures var a := articles[k];
      var r := WithReaction(articles, articleId, kind, userId)[k];
      var added := if a.id == articleId then [Reaction(userId)] else [];
      && r.id == a.id
      && r.likes == (if kind == Like then a.likes + added else a.likes)
      && r.dislikes == (if kind == Dislike then a.dislikes + added else a.dislikes)
      && r.(likes := a.likes, dislikes := a.dislikes) == a
  {
    WithReactionAt(articles, articleId, kind, userId, k);
  }

  /** There is no deduplication: two likes by the same user add two entries. */
  lemma LikedTwice(articles: seq<Article>, articleId: string, userId: string, k: nat)
    requires k < |articles| && articles[k].id == articleId
    ensures WithReaction(WithReaction(articles, articleId, Like, userId), articleId, Like, userId)[k].likes
      == articles[k].likes + [Reaction(userId), Reaction(userId)]
  {
    var once := WithReaction(articles, articleId, Like, userId);
    WithReactionAt(articles, articleId, Like, userId, k);
    WithReactionAt(once, articleId, Like, userId, k);
  }

  class DashboardPage {
    var articles: seq<Article>
    var selectedArticle: Option<Article>
    var loading: bool

    constructor ()
      ensures articles == [] && selectedArticle == None && loading
    {
      articles := [];
      selectedArticle := None;
      loading := true;
    }

    /** The fetch on mount: a successful answer replaces the list; the spinner stops either way. */
    method LoadArticles(reply: ApiReply, fetched: seq<Article>)
      modifies this`articles, this`loading
      ensures articles == if Succeeded(reply) then fetched else old(articles)
      ensures !loading
    {
      if Succeeded(reply) {
        articles := fetched;
      }
      loading := false;
    }

    /**
     * `handleLike` and `handleDislike` after the POST ended with `reply`;
     * `userId` is the id the page reads from the session.
     */
    method HandleReaction(articleId: string, kind: ReactionKind, userId: string, reply: ApiReply)
      modifies this`articles
      ensures articles == if Succeeded(reply) then WithReaction(old(articles), articleId, kind, userId) else old(articles)
    {
      if Succeeded(reply) {
        articles := WithReaction(articles, articleId, kind, userId);
      }
    }

    /** `handleBlock`: on success every article with the id leaves the feed. */
    method HandleBlock(articleId: string, reply: ApiReply)
      modifies this`articles
      ensures articles == if Succeeded(reply) then WithoutId(old(articles), articleId) else old(articles)
    {
      if Succeeded(reply) {
        articles := WithoutId(articles, articleId);
      }
    }

    method OpenModal(article: Article)
      modifies this`selectedArticle
      ensures selectedArticle == Some(article)
    {
      selectedArticle := Some(article);
    }

    method CloseModal()
      modifies this`selectedArticle
      ensures selectedArticle == None
    {
      selectedArticle := None;
    }
  }
}
