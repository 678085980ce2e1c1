/**
 * The older post form (`src/views/BlogPostForm/BlogPostForm.helpers.ts`). Images stay plain files in the
 * form, the creation payload always publishes, and the update payload adds the URL alias.
 */
module BlogPostForm {
  import opened Wrappers
  import opened Model
  import Seqs
  import Strings

  datatype FormValues = FormValues(
    title: string,
    excerpt: string,
    body: string,
    date: string,
    image: Option<FileType>,
    coverImage: Option<FileType>,
    pageTitle: string,
    pageDescription: string,
    openGraphImage: Option<FileType>,
    urlAlias: string,
    categories: seq<SelectOption<int>>,
    language: Option<SelectOption<string>>,
    relatedPosts: seq<SelectOption<int>>,
    tags: string)

  datatype CreationPayload = CreationPayload(
    title: string,
    excerpt: string,
    body: string,
    date: string,
    image: Option<int>,
    coverImage: Option<int>,
    pageTitle: string,
    pageDescription: string,
    openGraphImage: Option<int>,
    status: string,
    categories: seq<int>,
    language: Option<string>,
    relatedPosts: seq<int>,
    tags: seq<string>)

  /** `{ ...creationPayload, urlAlias }`. */
  datatype UpdatePayload = UpdatePayload(creation: CreationPayload, urlAlias: string)

  /** `file?.id ?? null`. */
  function FileId(file: Option<FileType>): (r: Option<int>)
    ensures r.Some? <==> file.Some?
    ensures file.Some? ==> r.value == file.value.id
  {
    match file
    case Some(f) => Some(f.id)
    case None => None
  }

  /** `convertPostToFormValues`: empty values for a new post, the post's own values otherwise. */
  function ToFormValues(post: Option<BlogPost>, languageOptions: seq<SelectOption<string>>,
                        postOptions: seq<SelectOption<int>>): (r: FormValues)
    ensures r.language.Some? ==> r.language.value in languageOptions
    ensures forall i :: 0 <= i < |r.relatedPosts| ==> r.relatedPosts[i] in postOptions
  {
    match post
    case None => FormValues("", "", "", "", None, None, "", "", None, "", [], None, [], "")
    case Some(p) =>
      FormValues(
        p.title, p.excerpt, p.body, p.date, p.image, p.coverImage,
        p.pageTitle.GetOr(""), p.pageDescription.GetOr(""), p.openGraphImage, p.urlAlias,
        seq(|p.categories|, i requires 0 <= i < |p.categories| => SelectOption(p.categories[i].id, p.categories[i].name)),
        OptionWithValue(languageOptions, p.language),
        OptionsWithValues(postOptions, Seqs.Map(p.relatedPosts, (rp: RelatedPost) => rp.id)),
        Strings.Join(p.tags, ","))
  }

  /** `convertFormValuesToCreationPayload`: whatever the form says, the post is sent as published. */
  function ToCreationPayload(values: FormValues): (r: CreationPayload)
    ensures r.status == "PUBLISHED"
    ensures |r.categories| == |values.categories| && |r.relatedPosts| == |values.relatedPosts|
  {
    CreationPayload(
      values.title, values.excerpt, values.body, values.date,
      FileId(values.image), FileId(values.coverImage),
      values.pageTitle, values.pageDescription, FileId(values.openGraphImage),
      "PUBLISHED",
      Values(values.categories),
      if values.language.Some? then Some(values.language.value.value) else None,
      Values(values.relatedPosts),
      Strings.SplitNonBlank(values.tags, ','))
  }

  /** `convertFormValuesToUpdatePayload`. */
  function ToUpdatePayload(values: FormValues): (r: UpdatePayload)
    ensures r.creation == ToCreationPayload(values) && r.urlAlias == values.urlAlias
  {
    UpdatePayload(ToCreationPayload(values), values.urlAlias)
  }

  /** The option of one category: its id, labelled by its name. */
  function CategoryOption(c: BlogCategory): SelectOption<int>
  {
    SelectOption(c.id, c.name)
  }

  /** `convertCategoryListToOptions`: the categories of the chosen language (all when none is chosen) as id/name options. */
  function CategoryOptions(categories: seq<BlogCategory>, languageId: Option<string>): (r: seq<SelectOption<int>>)
    ensures |r| <= |categories|
  {
    var kept := Seqs.Filter(categories, (c: BlogCategory) => InLanguage(languageId, c.language));
    seq(|kept|, i requires 0 <= i < |kept| => CategoryOption(kept[i]))
  }

  // ---------------------------------------------------------------------------------------------
  // Properties

  /** A new post starts from empty text, no files, no selections and no language. */
  lemma NewPostDefaults(languageOptions: seq<SelectOption<string>>, postOptions: seq<SelectOption<int>>)
    ensures var r := ToFormValues(None, languageOptions, postOptions);
      && r.title == r.excerpt == r.body == r.date == r.pageTitle == r.pageDescription == r.urlAlias == r.tags == ""
      && r.image.None? && r.coverImage.None? && r.openGraphImage.None?
      && r.categories == [] && r.relatedPosts == [] && r.language.None?
  {
  }

  /**
   * Saving an edited post unchanged sends back its category ids in order, its image ids, its texts, its language
   * code when a language option carries it, whatever its tags; and its tags too when none is blank or holds a comma.
   */
  lemma RoundTrip(post: BlogPost, languageOptions: seq<SelectOption<string>>, postOptions: seq<SelectOption<int>>)
    ensures var r := ToCreationPayload(ToFormValues(Some(post), languageOptions, postOptions));
      && |r.categories| == |post.categories|
      && (forall i :: 0 <= i < |r.categories| ==> r.categories[i] == post.categories[i].id)
      && r.image == FileId(post.image) && r.coverImage == FileId(post.coverImage)
      && r.openGraphImage == FileId(post.openGraphImage)
      && r.title == post.title && r.excerpt == post.excerpt && r.body == post.body && r.date == post.date
      && (r.language.Some? <==> post.language in Values(languageOptions))
      && (r.language.Some? ==> r.language.value == post.language)
      && ((forall i :: 0 <= i < |post.tags| ==> ',' !in post.tags[i] && !Strings.IsBlank(post.tags[i])) ==>
            r.tags == post.tags)
  {
    if forall i :: 0 <= i < |post.tags| ==> ',' !in post.tags[i] && !Strings.IsBlank(post.tags[i]) {
      Strings.SplitNonBlankJoin(post.tags, ',');
    }
  }

  /**
   * The related-post selection is the post options whose value is a related post's id, in option order and
   * each as often as it is offered.
   */
  lemma RelatedPostsSelection(post: BlogPost, languageOptions: seq<SelectOption<string>>, postOptions: seq<SelectOption<int>>)
    ensures var form := ToFormValues(Some(post), languageOptions, postOptions);
      && (forall o :: o in form.relatedPosts <==> o in postOptions && IsRelated(post.relatedPosts, o))
      && Seqs.KeepsInOrder(form.relatedPosts, postOptions, (o: SelectOption<int>) => IsRelated(post.relatedPosts, o))
  {
    RelatedSelection(postOptions, post.relatedPosts);
  }

  /** The options follow the categories of the chosen language in order, each as often as it occurs. */
  lemma CategoryOptionsInOrder(categories: seq<BlogCategory>, languageId: Option<string>)
    ensures Seqs.SelectsInOrder(CategoryOptions(categories, languageId), categories,
                                (c: BlogCategory) => InLanguage(languageId, c.language), CategoryOption)
  {
    var p := (c: BlogCategory) => InLanguage(languageId, c.language);
    Seqs.MapFilterInOrder(categories, p, CategoryOption, CategoryOptions(categories, languageId));
  }

  /**
   * Which categories have an option: without a language every category in order; with one, every category of
   * that language and no other.
   */
  lemma CategoryOptionsMembers(categories: seq<BlogCategory>, languageId: Option<string>)
    ensures var r := CategoryOptions(categories, languageId);
      && (!Truthy(languageId) ==> r == seq(|categories|, i requires 0 <= i < |categories| => CategoryOption(categories[i])))
      && (forall c :: c in categories && InLanguage(languageId, c.language) ==> CategoryOption(c) in r)
      && (forall o :: o in r ==> exists c :: c in categories && InLanguage(languageId, c.language) && o == CategoryOption(c))
  {
    var p := (c: BlogCategory) => InLanguage(languageId, c.language);
    var kept := Seqs.Filter(categories, p);
    var r := CategoryOptions(categories, languageId);
    if !Truthy(languageId) {
      Seqs.FilterAll(categories, p);
    }
    forall c | c in categories && InLanguage(languageId, c.language) ensures CategoryOption(c) in r {
      var k :| 0 <= k < |categories| && categories[k] == c;
      assert p(categories[k]);
      var m :| 0 <= m < |kept| && kept[m] == c;
      assert r[m] == CategoryOption(c);
    }
    forall o | o in r ensures exists c :: c in categories && InLanguage(languageId, c.language) && o == CategoryOption(c) {
      var m :| 0 <= m < |r| && r[m] == o;
      assert kept[m] in categories && p(kept[m]);
    }
  }

  /**
   * The category options are the categories of the chosen language (every category when none is chosen) as
   * id/name pairs: every such category has its option, every option comes from one, in category order and each
   * as often as the category occurs.
   */
  lemma CategoryOptionsSelection(categories: seq<BlogCategory>, languageId: Option<string>)
    ensures var r := CategoryOptions(categories, languageId);
      && (!Truthy(languageId) ==> r == seq(|categories|, i requires 0 <= i < |categories| => CategoryOption(categories[i])))
      && (forall c :: c in categories && InLanguage(languageId, c.language) ==> CategoryOption(c) in r)
      && (forall o :: o in r ==> exists c :: c in categories && InLanguage(languageId, c.language) && o == CategoryOption(c))
      && Seqs.SelectsInOrder(r, categories, (c: BlogCategory) => InLanguage(languageId, c.language), CategoryOption)
  {
    CategoryOptionsMembers(categories, languageId);
    CategoryOptionsInOrder(categories, languageId);
  }
}
