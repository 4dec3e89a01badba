/**
 * The edit-article page: it loads an article into its fields, tracks the
 * image (the one already stored, or a newly chosen file), validates the
 * required fields, clears a field's error when that field is edited, and on
 * submit sends the fields with exactly one image directive.
 */
module EditArticle {
  import opened Common
  import opened JsString
  import opened Form
  import opened ContentFormat

  const TitleRequired := "Title is required."
  const DescriptionRequired := "Description is required."
  const ContentRequired := "Content is required."
  const TagsRequired := "Tags are required."
  const CategoryRequired := "Category is required."

  /**
   * `validateForm`: an error for each required field that is the empty
   * string. There is no trimming, so a field holding only spaces passes.
   */
  function ValidateForm(title: string, description: string, content: string, tags: string, category: string)
    : (errors: map<string, string>)
    ensures "title" in errors <==> title == ""
    ensures "description" in errors <==> description == ""
    ensures "content" in errors <==> content == ""
    ensures "tags" in errors <==> tags == ""
    ensures "category" in errors <==> category == ""
    ensures errors.Keys <= {"title", "description", "content", "tags", "category"}
    ensures "title" in errors ==> errors["title"] == TitleRequired
    ensures "description" in errors ==> errors["description"] == DescriptionRequired
    ensures "content" in errors ==> errors["content"] == ContentRequired
    ensures "tags" in errors ==> errors["tags"] == TagsRequired
    ensures "category" in errors ==> errors["category"] == CategoryRequired
    ensures |errors| == 0 <==> title != "" && description != "" && content != "" && tags != "" && category != ""
  {
    var e0: map<string, string> := map[];
    var e1 := if title == "" then e0["title" := TitleRequired] else e0;
    var e2 := if description == "" then e1["description" := DescriptionRequired] else e1;
    var e3 := if content == "" then e2["content" := ContentRequired] else e2;
    var e4 := if tags == "" then e3["tags" := TagsRequired] else e3;
    var e5 := if category == "" then e4["category" := CategoryRequired] else e4;
    assert |e5| == 0 ==> "title" !in e5;
    e5
  }

  /**
   * The image part of the body: the new file if one was chosen, otherwise
   * `removeImage` = `false` when a stored image is kept, otherwise
   * `removeImage` = `true`.
   */
  function ImageDirective(newImage: Option<ImageFile>, existingImage: Option<string>): (e: Entry)
    ensures e.name == "image" <==> newImage.Some?
    ensures e.name == "image" ==> e.value == File(newImage.value)
    ensures e.name != "image" ==> e.name == "removeImage"
    ensures e == Entry("removeImage", Text("true")) <==> newImage.None? && !Truthy(existingImage)
    ensures e == Entry("removeImage", Text("false")) <==> newImage.None? && Truthy(existingImage)
  {
    if newImage.Some? then Entry("image", File(newImage.value))
    else if Truthy(existingImage) then Entry("removeImage", Text("false"))
    else Entry("removeImage", Text("true"))
  }

  /** The entries the submit handler appends, in order. */
  function EditEntries(title: string, description: string, content: string, tags: string, category: string,
                       newImage: Option<ImageFile>, existingImage: Option<string>): seq<Entry>
  {
    ArticleFields(title, description, FormatContent(content), tags, category)
    + [ImageDirective(newImage, existingImage)]
  }

  /** The five fields go first, in order, and exactly one image directive follows them. */
  lemma EditEntriesNames(title: string, description: string, content: string, tags: string, category: string,
                         newImage: Option<ImageFile>, existingImage: Option<string>)
    ensures Names(EditEntries(title, description, content, tags, category, newImage, existingImage)) ==
      ["title", "description", "content", "tags", "category"] + [ImageDirective(newImage, existingImage).name]
  {
    var formatted := FormatContent(content);
    var fields := ArticleFields(title, description, formatted, tags, category);
    var directive := [ImageDirective(newImage, existingImage)];
    ArticleFieldNames(title, description, formatted, tags, category);
    NamesAppend(fields, directive);
    assert directive[1..] == [];
  }

  /**
   * The body carries the formatted content, and it carries `image` exactly
   * when a new file was chosen and `removeImage` exactly when none was.
   */
  lemma EditEntriesLookup(title: string, description: string, content: string, tags: string, category: string,
                          newImage: Option<ImageFile>, existingImage: Option<string>)
    ensures var entries := EditEntries(title, description, content, tags, category, newImage, existingImage);
      && Get(entries, "content") == Some(Text(FormatContent(content)))
      && (Get(entries, "image").Some? <==> newImage.Some?)
      && (Get(entries, "removeImage").Some? <==> newImage.None?)
  {
    var formatted := FormatContent(content);
    var fields := ArticleFields(title, description, formatted, tags, category);
    var d := ImageDirective(newImage, existingImage);
    ArticleFieldsShape(title, description, formatted, tags, category);
    GetAppend(fields, [d], "content");
    GetAppend(fields, [d], "image");
    GetAppend(fields, [d], "removeImage");
    NotAFieldName("image");
    NotAFieldName("removeImage");
    DirectiveLookup(d, newImage.Some?);
  }

  lemma DirectiveLookup(d: Entry, isImage: bool)
    requires d.name == (if isImage then "image" else "removeImage")
    ensures Get([d], "image").Some? <==> isImage
    ensures Get([d], "removeImage").Some? <==> !isImage
  {
    assert [d][1..] == [];
    assert |"image"| != |"removeImage"|;
  }

  /** `images[0] || null`: the first stored image, unless there is none or it is empty. */
  function FirstImage(images: seq<string>): (r: Option<string>)
    ensures r.Some? <==> |images| > 0 && images[0] != ""
    ensures r.Some? ==> r.value == images[0]
  {
    if |images| > 0 && images[0] != "" then Some(images[0]) else None
  }

  /** The article as `GET /articles/:id` returns it. */
  datatype ArticleDetails = ArticleDetails(
    title: string,
    description: string,
    content: string,
    tags: seq<string>,
    category: string,
    images: seq<string>)

  /** How the fetch ended: an answer with its `success` flag, or an exception. */
  datatype FetchReply = Fetched(success: bool, article: ArticleDetails) | FetchThrew

  /** The fields the edit form shows. */
  datatype EditField = TitleField | DescriptionField | ContentField | TagsField | CategoryField

  function FieldKey(f: EditField): string
  {
    match f
    case TitleField => "title"
    case DescriptionField => "description"
    case ContentField => "content"
    case TagsField => "tags"
    case CategoryField => "category"
  }

  lemma FieldKeysDistinct(f: EditField, g: EditField)
    ensures FieldKey(f) == FieldKey(g) <==> f == g
  {
  }

  /** Builds the body with one `append` per field and one for the image directive. */
  method BuildEditForm(title: string, description: string, content: string, tags: string, category: string,
                       newImage: Option<ImageFile>, existingImage: Option<string>) returns (form: FormData)
    ensures fresh(form)
    ensures form.entries == EditEntries(title, description, content, tags, category, newImage, existingImage)
  {
    var formattedContent := FormatContent(content);
    form := new FormData();
    form.AppendArticleFields(title, description, formattedContent, tags, category);
    var directive := ImageDirective(newImage, existingImage);
    form.Append(directive.name, directive.value);
    assert Entry(directive.name, directive.value) == directive;
  }

  class EditArticlePage {
    var title: string
    var description: string
    var content: string
    var tags: string
    var category: string
    var existingImage: Option<string>
    var newImage: Option<ImageFile>
    var errors: map<string, string>
    var loading: bool
    /** The bodies sent with `PUT /articles/:id`, oldest first. */
    var sent: seq<seq<Entry>>
    var navigations: seq<Navigation>

    constructor ()
      ensures title == "" && description == "" && content == "" && tags == "" && category == ""
      ensures existingImage == None && newImage == None && errors == map[] && loading
      ensures sent == [] && navigations == []
    {
      title, description, content, tags, category := "", "", "", "", "";
      existingImage, newImage := None, None;
      errors := map[];
      loading := true;
      sent, navigations := [], [];
    }

    /**
     * The effect that fetches the article: on a successful answer the
     * fields take the article's values, the tags joined with `", "` and the
     * stored image being the first one; otherwise the fields stay as they
     * were. Either way the spinner stops.
     */
    method LoadArticle(reply: FetchReply)
      modifies this`title, this`description, this`content, this`tags, this`category,
               this`existingImage, this`loading
      ensures !loading
      ensures reply.Fetched? && reply.success ==>
        && title == reply.article.title && description == reply.article.description
        && content == reply.article.content && tags == Join(reply.article.tags, ", ")
        && category == reply.article.category && existingImage == FirstImage(reply.article.images)
      ensures !(reply.Fetched? && reply.success) ==>
        && title == old(title) && description == old(description) && content == old(content)
        && tags == old(tags) && category == old(category) && existingImage == old(existingImage)
    {
      loading := true;
      if reply.Fetched? && reply.success {
        var a := reply.article;
        title := a.title;
        description := a.description;
        content := a.content;
        tags := Join(a.tags, ", ");
        category := a.category;
        existingImage := FirstImage(a.images);
      }
      loading := false;
    }

    /**
     * A file input change: with at least one file the first becomes the new
     * image and the stored image is dropped; with none, nothing changes.
     */
    method HandleImageChange(files: seq<ImageFile>)
      modifies this`newImage, this`existingImage
      ensures |files| > 0 ==> newImage == Some(files[0]) && existingImage == None
      ensures |files| == 0 ==> newImage == old(newImage) && existingImage == old(existingImage)
    {
      if |files| > 0 {
        newImage := Some(files[0]);
        existingImage := None;
      }
    }

    /** Removing the image forgets both images, so the next submit asks the server to remove it. */
    method HandleRemoveImage()
      modifies this`newImage, this`existingImage
      ensures newImage == None && existingImage == None
      ensures ImageDirective(newImage, existingImage) == Entry("removeImage", Text("true"))
    {
      newImage := None;
      existingImage := None;
    }

    /** Editing a field sets it and clears that field's error entry only. */
    method ChangeField(field: EditField, value: string)
      modifies this`title, this`description, this`content, this`tags, this`category, this`errors
      ensures errors == old(errors)[FieldKey(field) := ""]
      ensures title == (if field == TitleField then value else old(title))
      ensures description == (if field == DescriptionField then value else old(description))
      ensures content == (if field == ContentField then value else old(content))
      ensures tags == (if field == TagsField then value else old(tags))
      ensures category == (if field == CategoryField then value else old(category))
    {
      match field {
        case TitleField => title := value;
        case DescriptionField => description := value;
        case ContentField => content := value;
        case TagsField => tags := value;
        case CategoryField => category := value;
      }
      errors := errors[FieldKey(field) := ""];
    }

    /**
     * Submission; `reply` is how the PUT ended. When a required field is
     * empty the errors are replaced by the validation map and nothing is
     * sent; otherwise the errors stay as they are, one body is sent, and the
     * page moves to `/my-articles` when the server answered with `success`.
     */
    method Submit(reply: ApiReply)
      modifies this`errors, this`sent, this`navigations
      ensures var v := ValidateForm(old(title), old(description), old(content), old(tags), old(category));
        if |v| > 0 then
          errors == v && sent == old(sent) && navigations == old(navigations)
        else
          && errors == old(errors)
          && sent == old(sent + [EditEntries(title, description, content, tags, category, newImage, existingImage)])
          && navigations == old(navigations) +
               (if Succeeded(reply) then [Navigation("/my-articles", false)] else [])
    {
      var validation := ValidateForm(title, description, content, tags, category);
      if |validation| > 0 {
        errors := validation;
      } else {
        SendForm(reply);
      }
    }

    /** The part of submission after validation passed: build and send the body, then navigate on success. */
    method SendForm(reply: ApiReply)
      modifies this`sent, this`navigations
      ensures sent == old(sent + [EditEntries(title, description, content, tags, category, newImage, existingImage)])
      ensures navigations == old(navigations) +
        (if Succeeded(reply) then [Navigation("/my-articles", false)] else [])
    {
      var form := BuildEditForm(title, description, content, tags, category, newImage, existingImage);
      sent := sent + [form.entries];
      if Succeeded(reply) {
        navigations := navigations + [Navigation("/my-articles", false)];
      }
    }
  }
}
