/**
 * The author's own list: delete an article, go to its edit page, and the
 * empty-list notice.
 */
module ArticleList {
  import opened Common
  import opened Article

  /** What the page shows: the notice, or one card per article in list order. */
  datatype ListView = NoArticlesFound | Cards(articles: seq<Article>)

  function View(articles: seq<Article>): (v: ListView)
    ensures v == NoArticlesFound <==> |articles| == 0
    ensures v.Cards? ==> v.articles == articles
  {
    if |articles| == 0 then NoArticlesFound else Cards(articles)
  }

  /** The route of an article's edit page. */
  function EditPath(articleId: string): (path: string)
    ensures |path| == |"/edit-article/"| + |articleId|
    ensures path[..|"/edit-article/"|] == "/edit-article/"
    ensures path[|"/edit-article/"|..] == articleId
  {
    "/edit-article/" + articleId
  }

  class ArticleListPage {
    var articles: seq<Article>
    var navigations: seq<Navigation>

    constructor ()
      ensures articles == [] && navigations == []
    {
      articles := [];
      navigations := [];
    }

    /** The fetch on mount: a successful answer replaces the list. */
    method LoadArticles(reply: ApiReply, fetched: seq<Article>)
      modifies this`articles
      ensures articles == if Succeeded(reply) then fetched else old(articles)
    {
      if Succeeded(reply) {
        articles := fetched;
      }
    }

    /**
     * `handleDelete` after the DELETE ended with `reply`: on success exactly
     * the articles with that id are dropped, the rest keep their order and
     * the list shrinks by the number dropped; otherwise nothing changes.
     */
    method HandleDelete(articleId: string, reply: ApiReply)
      modifies this`articles
      ensures Succeeded(reply) ==>
        && articles == WithoutId(old(articles), articleId)
        && |articles| == |old(articles)| - CountWithId(old(articles), articleId)
      ensures !Succeeded(reply) ==> articles == old(articles)
    {
      if Succeeded(reply) {
        WithoutIdLength(articles, articleId);
        articles := WithoutId(articles, articleId);
      }
    }

    method HandleEdit(articleId: string)
      modifies this`navigations
      ensures navigations == old(navigations) + [Navigation(EditPath(articleId), false)]
    {
      navigations := navigations + [Navigation(EditPath(articleId), false)];
    }
  }
}
