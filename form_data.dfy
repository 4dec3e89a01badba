/**
 * The browser's `FormData`, as far as the article pages use it: a list of
 * named entries that `append` extends at the end, in call order.
 */
module Form {
  import opened Common

  /** An uploaded file, known to the pages only as an opaque handle. */
  datatype ImageFile = ImageFile(name: string)

  /** An entry's value: a string, or a file from a file input. */
  datatype FormValue = Text(text: string) | File(file: ImageFile)

  datatype Entry = Entry(name: string, value: FormValue)

  /** The names of the entries, in order. */
  function Names(entries: seq<Entry>): (names: seq<string>)
    ensures |names| == |entries|
    ensures forall k :: 0 <= k < |entries| ==> names[k] == entries[k].name
  {
    if entries == [] then [] else [entries[0].name] + Names(entries[1..])
  }

  /** The value of the first entry called `name`, as `FormData.get` returns it. */
  function Get(entries: seq<Entry>, name: string): (r: Option<FormValue>)
    ensures r.Some? <==> name in Names(entries)
    ensures r.Some? ==> Entry(name, r.value) in entries
  {
    if entries == [] then None
    else if entries[0].name == name then Some(entries[0].value)
    else Get(entries[1..], name)
  }

  /**
   * The five text fields both article forms append first, in this order;
   * `content` carries the already formatted text.
   */
  function ArticleFields(title: string, description: string, formattedContent: string, tags: string, category: string)
    : seq<Entry>
  {
    [ Entry("title", Text(title)),
      Entry("description", Text(description)),
      Entry("content", Text(formattedContent)),
      Entry("tags", Text(tags)),
      Entry("category", Text(category)) ]
  }

  /** The five common fields carry these names, in this order. */
  lemma ArticleFieldNames(title: string, description: string, formattedContent: string, tags: string, category: string)
    ensures Names(ArticleFields(title, description, formattedContent, tags, category)) ==
      ["title", "description", "content", "tags", "category"]
  {
    var fields := ArticleFields(title, description, formattedContent, tags, category);
    assert fields[1..][1..][1..][1..][1..] == [];
  }

  /** Each of the five names looks up exactly the value given for it. */
  lemma ArticleFieldsShape(title: string, description: string, formattedContent: string, tags: string, category: string)
    ensures var fields := ArticleFields(title, description, formattedContent, tags, category);
      && Names(fields) == ["title", "description", "content", "tags", "category"]
      && Get(fields, "title") == Some(Text(title))
      && Get(fields, "description") == Some(Text(description))
      && Get(fields, "content") == Some(Text(formattedContent))
      && Get(fields, "tags") == Some(Text(tags))
      && Get(fields, "category") == Some(Text(category))
  {
    ArticleFieldNames(title, description, formattedContent, tags, category);
    var fields := ArticleFields(title, description, formattedContent, tags, category);
    var f1 := fields[1..];
    var f2 := f1[1..];
    var f3 := f2[1..];
    var f4 := f3[1..];
    assert f4 == [Entry("category", Text(category))];
    assert Get(f3, "tags") == Some(Text(tags));
    assert Get(f3, "category") == Get(f4, "category") == Some(Text(category));
    assert Get(f2, "content") == Some(Text(formattedContent));
    assert Get(f2, "tags") == Get(f3, "tags") && Get(f2, "category") == Get(f3, "category");
    assert Get(f1, "description") == Some(Text(description));
    assert Get(f1, "content") == Get(f2, "content") && Get(f1, "tags") == Get(f2, "tags");
    assert Get(f1, "category") == Get(f2, "category");
    assert Get(fields, "description") == Get(f1, "description");
    assert Get(fields, "content") == Get(f1, "content") && Get(fields, "tags") == Get(f1, "tags");
    assert Get(fields, "category") == Get(f1, "category");
  }

  /** A name that starts with another letter than the five field names is none of them. */
  lemma NotAFieldName(name: string)
    requires name != [] && name[0] != 't' && name[0] != 'd' && name[0] != 'c'
    ensures name !in ["title", "description", "content", "tags", "category"]
  {
    var fieldNames := ["title", "description", "content", "tags", "category"];
    forall k | 0 <= k < |fieldNames| ensures fieldNames[k] != name {
      assert fieldNames[k][0] != name[0];
    }
  }

  lemma {:induction false} NamesAppend(a: seq<Entry>, b: seq<Entry>)
    ensures Names(a + b) == Names(a) + Names(b)
  {
    if a == [] {
      assert a + b == b;
    } else {
      assert (a + b)[1..] == a[1..] + b;
      NamesAppend(a[1..], b);
    }
  }

  /** A lookup finds the first entry of the name, so entries appended later do not hide it. */
  lemma {:induction false} GetAppend(a: seq<Entry>, b: seq<Entry>, name: string)
    ensures Get(a + b, name) == if name in Names(a) then Get(a, name) else Get(b, name)
  {
    if a == [] {
      assert a + b == b;
    } else {
      assert (a + b)[0] == a[0];
      assert (a + b)[1..] == a[1..] + b;
      GetAppend(a[1..], b, name);
      assert name in Names(a) <==> name == a[0].name || name in Names(a[1..]) by {
        assert Names(a) == [a[0].name] + Names(a[1..]);
      }
    }
  }

  class FormData {
    var entries: seq<Entry>

    constructor ()
      ensures entries == []
    {
      entries := [];
    }

    /** The five `append` calls both article forms start with. */
    method AppendArticleFields(title: string, description: string, formattedContent: string, tags: string, category: string)
      modifies this
      ensures entries == old(entries) + ArticleFields(title, description, formattedContent, tags, category)
    {
      Append("title", Text(title));
      Append("description", Text(description));
      Append("content", Text(formattedContent));
      Append("tags", Text(tags));
      Append("category", Text(category));
    }

    /** `formData.append(name, value)` */
    method Append(name: string, value: FormValue)
      modifies this
      ensures entries == old(entries) + [Entry(name, value)]
    {
      entries := entries + [Entry(name, value)];
    }
  }
}
