/**
 * The create-article page's submit handler: it formats the content, builds
 * the multipart body field by field, posts it, navigates to the author's
 * list on success and always clears the form's submitting flag.
 */
module CreateArticle {
  import opened Common
  import opened Form
  import opened ContentFormat

  /** The form's values as the submit handler receives them. */
  datatype ArticleValues = ArticleValues(
    title: string,
    description: string,
    content: string,
    tags: string,
    category: string,
    image: Option<ImageFile>)

  /** The entries the handler appends, in the order it appends them. */
  function CreateEntries(values: ArticleValues): seq<Entry>
  {
    ArticleFields(values.title, values.description, FormatContent(values.content), values.tags, values.category)
    + (if values.image.Some? then [Entry("image", File(values.image.value))] else [])
  }

  /**
   * The fields go out in the order title, description, content, tags,
   * category, and `image` follows only when a file was chosen.
   */
  lemma CreateFieldOrder(values: ArticleValues)
    ensures Names(CreateEntries(values)) ==
      ["title", "description", "content", "tags", "category"]
      + (if values.image.Some? then ["image"] else [])
  {
    var fields := ArticleFields(values.title, values.description, FormatContent(values.content), values.tags, values.category);
    var image := if values.image.Some? then [Entry("image", File(values.image.value))] else [];
    ArticleFieldNames(values.title, values.description, FormatContent(values.content), values.tags, values.category);
    NamesAppend(fields, image);
    assert values.image.Some? ==> Names(image) == ["image"] by {
      if values.image.Some? { assert image[1..] == []; }
    }
  }

  /**
   * The body carries the formatted content, never the raw text, and the
   * chosen file under `image`; without a file there is no `image` entry.
   */
  lemma CreateEntriesValues(values: ArticleValues)
    ensures Get(CreateEntries(values), "content") == Some(Text(FormatContent(values.content)))
    ensures Get(CreateEntries(values), "title") == Some(Text(values.title))
    ensures values.image.Some? ==> Get(CreateEntries(values), "image") == Some(File(values.image.value))
    ensures values.image.None? ==> Get(CreateEntries(values), "image") == None
  {
    var fields := ArticleFields(values.title, values.description, FormatContent(values.content), values.tags, values.category);
    var image := if values.image.Some? then [Entry("image", File(values.image.value))] else [];
    ArticleFieldsShape(values.title, values.description, FormatContent(values.content), values.tags, values.category);
    GetAppend(fields, image, "content");
    GetAppend(fields, image, "title");
    GetAppend(fields, image, "image");
    NotAFieldName("image");
    if values.image.Some? {
      assert image[1..] == [];
    }
  }

  /** Builds the body with one `append` per field. */
  method BuildCreateForm(values: ArticleValues) returns (form: FormData)
    ensures fresh(form)
    ensures form.entries == CreateEntries(values)
  {
    var formattedContent := FormatContent(values.content);
    form := new FormData();
    form.AppendArticleFields(values.title, values.description, formattedContent, values.tags, values.category);
    if values.image.Some? {
      form.Append("image", File(values.image.value));
    }
  }

  class CreateArticlePage {
    /** Formik's `isSubmitting`. */
    var isSubmitting: bool
    /** The bodies posted to `/articles/create`, oldest first. */
    var posted: seq<seq<Entry>>
    /** The navigations performed, oldest first. */
    var navigations: seq<Navigation>

    constructor ()
      ensures !isSubmitting && posted == [] && navigations == []
    {
      isSubmitting := false;
      posted := [];
      navigations := [];
    }

    /**
     * One submission; `reply` is how the POST ended. Exactly one body is
     * posted, the page moves to `/my-articles` only when the server answered
     * with `success`, and the submitting flag is false afterwards whatever
     * the outcome.
     */
    method Submit(values: ArticleValues, reply: ApiReply)
      modifies this
      ensures posted == old(posted) + [CreateEntries(values)]
      ensures navigations == old(navigations) +
        (if Succeeded(reply) then [Navigation("/my-articles", false)] else [])
      ensures !isSubmitting
    {
      isSubmitting := true;
      var form := BuildCreateForm(values);
      posted := posted + [form.entries];
      if Succeeded(reply) {
        navigations := navigations + [Navigation("/my-articles", false)];
      }
      isSubmitting := false;
    }
  }
}
