/**
 * The article modal: it renders nothing unless it is open and has an
 * article, and shows the content through the paragraph-only formatter.
 */
module MyArticleModal {
  import opened Common
  import opened Article
  import opened ContentFormat

  /** The fields of the article the modal reads. */
  datatype ModalArticle = ModalArticle(
    title: string,
    images: seq<string>,
    content: string,
    tags: seq<string>,
    likes: seq<Reaction>,
    dislikes: seq<Reaction>,
    blocks: nat)

  /** What an open modal shows. */
  datatype ModalView = ModalView(
    title: string,
    image: Option<string>,
    html: string,
    tags: seq<string>,
    likes: nat,
    dislikes: nat,
    blocks: nat)

  /**
   * `null` unless `isOpen` and an article is given; otherwise the title,
   * the first image when there is one, the content as paragraphs, the tags
   * and the reaction counts.
   */
  function Render(isOpen: bool, article: Option<ModalArticle>): (v: Option<ModalView>)
    ensures v.Some? <==> isOpen && article.Some?
    ensures v.Some? ==> v.value.title == article.value.title && v.value.tags == article.value.tags
    ensures v.Some? ==> v.value.html == FormatParagraphs(article.value.content)
    ensures v.Some? ==> (v.value.image.Some? <==> |article.value.images| > 0)
    ensures v.Some? && |article.value.images| > 0 ==> v.value.image == Some(article.value.images[0])
    ensures v.Some? ==> v.value.likes == |article.value.likes| && v.value.dislikes == |article.value.dislikes|
    ensures v.Some? ==> v.value.blocks == article.value.blocks
  {
    if !isOpen || article.None? then None
    else
      var a := article.value;
      Some(ModalView(
        a.title,
        if |a.images| > 0 then Some(a.images[0]) else None,
        FormatParagraphs(a.content),
        a.tags,
        |a.likes|,
        |a.dislikes|,
        a.blocks))
  }

  /** An empty article body shows as one empty paragraph. */
  lemma EmptyContentView(a: ModalArticle)
    requires a.content == ""
    ensures Render(true, Some(a)).value.html == "<p></p>"
  {
    FormatParagraphsEmpty();
  }
}
