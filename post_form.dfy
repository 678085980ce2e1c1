/**
 * The newer post form (`src/views/Posts/PostForm/PostForm.helpers.ts`): a fetched post becomes form state,
 * and the form state becomes the payload of a create or update request.
 *
 * `createId` (a fresh widget key per call) is a function of the call's position in the conversion;
 * the dynamic-field library is two function parameters: `createFormField` builds a form field from a
 * schema and an optional stored value, `outgoing` reads the value to send back.
 */
module PostForm {
  import opened Wrappers
  import opened Model
  import Seqs
  import Strings
  import Common

  const Published := "PUBLISHED"
  const Draft := "DRAFT"
  const Archived := "ARCHIVED"

  /** How many characters of a date-time the date inputs keep (`substr(0, 10)`, the `yyyy-mm-dd` part). */
  const DateLength: nat := 10

  /** `getStatusOptions(t)`: the three statuses, in this order, labelled through the translation function. */
  function StatusOptions(t: string -> string): (r: seq<SelectOption<string>>)
    ensures Values(r) == [Published, Draft, Archived]
  {
    [ SelectOption(Published, t("blog:statusPublished")),
      SelectOption(Draft, t("blog:statusDraft")),
      SelectOption(Archived, t("blog:statusArchived")) ]
  }

  datatype FormValues<W> = FormValues(
    title: string,
    excerpt: string,
    body: string,
    datetime: string,
    coverImage: Option<FileInput>,
    image: Option<FileInput>,
    imageMobile: Option<FileInput>,
    pageTitle: string,
    pageDescription: string,
    openGraphImage: Option<FileInput>,
    urlAlias: string,
    categories: seq<SelectOption<int>>,
    language: Option<SelectOption<string>>,
    relatedPosts: seq<SelectOption<int>>,
    tags: string,
    additionalFields: seq<FormField<W>>,
    status: SelectOption<string>,
    statusDateEnabled: bool,
    statusDate: Option<string>)

  /** `PostCreationPayload`; the update payload has the same shape. */
  datatype Payload<V> = Payload(
    title: string,
    excerpt: string,
    urlAlias: string,
    body: string,
    datetime: string,
    coverImage: Option<int>,
    image: Option<int>,
    imageMobile: Option<int>,
    pageTitle: string,
    pageDescription: string,
    openGraphImage: Option<int>,
    categories: seq<int>,
    language: Option<string>,
    relatedPosts: seq<int>,
    tags: seq<string>,
    additionalFields: seq<AdditionalField<V>>,
    status: string,
    archiveAt: Option<string>,
    publishAt: Option<string>)

  /** `file ? { id: key, file } : null`. */
  function FileInputOf(file: Option<FileType>, key: string): Option<FileInput>
  {
    match file
    case Some(f) => Some(FileInput(key, f))
    case None => None
  }

  /** `input?.file.id ?? null`. */
  function FileIdOf(input: Option<FileInput>): Option<int>
  {
    match input
    case Some(i) => Some(i.file.id)
    case None => None
  }

  /** The status option with the post's status, falling back to the first option. */
  function StatusOption(statusOptions: seq<SelectOption<string>>, status: string): (r: SelectOption<string>)
    requires |statusOptions| > 0
    ensures r in statusOptions
    ensures r.value == if status in Values(statusOptions) then status else statusOptions[0].value
  {
    OptionWithValue(statusOptions, status).GetOr(statusOptions[0])
  }

  /** Whether the post carries a schedule date for its status: archive date if published, publish date if a draft. */
  function ScheduleEnabled<V>(post: PostFull<V>): bool
  {
    if post.status == Published then Truthy(post.archiveAt)
    else if post.status == Draft then Truthy(post.publishAt)
    else false
  }

  function ScheduleDate<V>(post: PostFull<V>): Option<string>
  {
    if post.status == Published && Truthy(post.archiveAt) then Some(Strings.Prefix(post.archiveAt.value, DateLength))
    else if post.status == Draft && Truthy(post.publishAt) then Some(Strings.Prefix(post.publishAt.value, DateLength))
    else None
  }

  /** The stored value of the dynamic field named `name`, if the post has one. */
  function StoredValue<V>(fields: seq<AdditionalField<V>>, name: string): Option<V>
  {
    match Seqs.Find(fields, (f: AdditionalField<V>) => f.name == name)
    case Some(f) => Some(f.value)
    case None => None
  }

  /** One form field per schema, in schema order, filled from the post's stored value of the same name. */
  function FormFields<V, W>(configs: seq<FieldConfig>, stored: Option<seq<AdditionalField<V>>>,
                            createFormField: (FieldConfig, Option<V>) -> FormField<W>): (r: seq<FormField<W>>)
    ensures |r| == |configs|
    ensures stored.None? ==> forall i :: 0 <= i < |r| ==> r[i] == createFormField(configs[i], None)
  {
    seq(|configs|, i requires 0 <= i < |configs| =>
      createFormField(configs[i], if stored.Some? then StoredValue(stored.value, configs[i].name) else None))
  }

  /** `convertPostToFormValues`: defaults for a new post, the post's own values otherwise. */
  function ToFormValues<V, W>(post: Option<PostFull<V>>,
                              languageOptions: seq<SelectOption<string>>,
                              postOptions: seq<SelectOption<int>>,
                              fieldConfigs: seq<FieldConfig>,
                              statusOptions: seq<SelectOption<string>>,
                              createId: nat -> string,
                              createFormField: (FieldConfig, Option<V>) -> FormField<W>): (r: FormValues<W>)
    requires |statusOptions| > 0
    ensures r.status in statusOptions
    ensures r.language.Some? ==> r.language.value in languageOptions
    ensures forall i :: 0 <= i < |r.relatedPosts| ==> r.relatedPosts[i] in postOptions
    ensures |r.additionalFields| == |fieldConfigs|
  {
    match post
    case None =>
      FormValues("", "", "", "", None, None, None, "", "", None, "", [], None, [], "",
                 FormFields(fieldConfigs, None, createFormField), statusOptions[0], false, None)
    case Some(p) =>
      FormValues(
        p.title, p.excerpt, p.body,
        if Truthy(p.datetime) then Strings.Prefix(p.datetime.value, DateLength) else "",
        FileInputOf(p.coverImage, createId(0)),
        FileInputOf(p.image, createId(1)),
        FileInputOf(p.imageMobile, createId(2)),
        p.pageTitle.GetOr(""),
        p.pageDescription.GetOr(""),
        FileInputOf(p.openGraphImage, createId(3)),
        p.urlAlias,
        seq(|p.categories|, i requires 0 <= i < |p.categories| => SelectOption(p.categories[i].id, p.categories[i].name)),
        OptionWithValue(languageOptions, p.language),
        OptionsWithValues(postOptions, Seqs.Map(p.relatedPosts, (rp: RelatedPost) => rp.id)),
        Strings.Join(p.tags, ","),
        FormFields(fieldConfigs, Some(p.additionalFields), createFormField),
        StatusOption(statusOptions, p.status),
        ScheduleEnabled(p),
        ScheduleDate(p))
  }

  /** `convertFormValuesToCreationPayload`. */
  function ToCreationPayload<V, W>(values: FormValues<W>, outgoing: FormField<W> -> V): (r: Payload<V>)
    ensures r.archiveAt.Some? ==> r.status == Published && r.publishAt.None?
    ensures r.publishAt.Some? ==> r.status == Draft && r.archiveAt.None?
    ensures |r.additionalFields| == |values.additionalFields|
  {
    var fields := values.additionalFields;
    var scheduled := values.statusDateEnabled && Truthy(values.statusDate);
    Payload(
      values.title, values.excerpt, values.urlAlias, values.body, values.datetime,
      FileIdOf(values.coverImage), FileIdOf(values.image), FileIdOf(values.imageMobile),
      values.pageTitle, values.pageDescription, FileIdOf(values.openGraphImage),
      Values(values.categories),
      if values.language.Some? then Some(values.language.value.value) else None,
      Values(values.relatedPosts),
      Strings.SplitNonBlank(values.tags, ','),
      seq(|fields|, i requires 0 <= i < |fields| => AdditionalField(fields[i].config.name, outgoing(fields[i]))),
      values.status.value,
      if values.status.value == Published && scheduled then values.statusDate else None,
      if values.status.value == Draft && scheduled then values.statusDate else None)
  }

  /** `convertFormValuesToUpdatePayload`: the creation payload with `urlAlias` written again. */
  function ToUpdatePayload<V, W>(values: FormValues<W>, outgoing: FormField<W> -> V): (r: Payload<V>)
    ensures r == ToCreationPayload(values, outgoing)
  {
    ToCreationPayload(values, outgoing).(urlAlias := values.urlAlias)
  }

  /** The option of one category: its id, labelled by its name indented by its depth. */
  function CategoryOption(c: Category): SelectOption<int>
  {
    SelectOption(c.id, Common.NameWithDepth(c.name, c.depth))
  }

  /** `convertCategoryListToOptions`: categories of the chosen language (all when none is chosen) as options. */
  function CategoryOptions(categories: seq<Category>, languageId: Option<string>): (r: seq<SelectOption<int>>)
    ensures |r| <= |categories|
  {
    var kept := Seqs.Filter(categories, (c: Category) => InLanguage(languageId, c.language));
    seq(|kept|, i requires 0 <= i < |kept| => CategoryOption(kept[i]))
  }

  // ---------------------------------------------------------------------------------------------
  // Properties

  /** A new post starts from empty text, no images, no selections, the first status and no schedule. */
  lemma NewPostDefaults<V, W>(languageOptions: seq<SelectOption<string>>, postOptions: seq<SelectOption<int>>,
                              fieldConfigs: seq<FieldConfig>, statusOptions: seq<SelectOption<string>>,
                              createId: nat -> string, createFormField: (FieldConfig, Option<V>) -> FormField<W>)
    requires |statusOptions| > 0
    ensures var r := ToFormValues(None, languageOptions, postOptions, fieldConfigs, statusOptions, createId, createFormField);
      && r.title == r.excerpt == r.body == r.datetime == r.pageTitle == r.pageDescription == r.urlAlias == r.tags == ""
      && r.coverImage.None? && r.image.None? && r.imageMobile.None? && r.openGraphImage.None?
      && r.categories == [] && r.relatedPosts == [] && r.language.None?
      && r.status == statusOptions[0] && !r.statusDateEnabled && r.statusDate.None?
      && forall i :: 0 <= i < |fieldConfigs| ==> r.additionalFields[i] == createFormField(fieldConfigs[i], None)
  {
  }

  /**
   * The payload holds an archive date exactly for a published post with the schedule switched on and a date
   * filled in, and a publish date exactly for a draft under the same conditions; never both, and an archived
   * post holds neither.
   */
  lemma ScheduleDates<V, W>(values: FormValues<W>, outgoing: FormField<W> -> V)
    ensures var r := ToCreationPayload(values, outgoing);
      && (r.archiveAt.Some? <==> values.status.value == Published && values.statusDateEnabled && Truthy(values.statusDate))
      && (r.publishAt.Some? <==> values.status.value == Draft && values.statusDateEnabled && Truthy(values.statusDate))
      && (r.archiveAt.Some? ==> r.archiveAt == values.statusDate)
      && (r.publishAt.Some? ==> r.publishAt == values.statusDate)
      && !(r.archiveAt.Some? && r.publishAt.Some?)
      && (values.status.value == Archived ==> r.archiveAt.None? && r.publishAt.None?)
  {
  }

  /**
   * The payload's tags are exactly the non-blank comma-separated pieces of the tag input, untrimmed, in the
   * order of the input and each as often as it occurs there.
   */
  lemma PayloadTags<V, W>(values: FormValues<W>, outgoing: FormField<W> -> V)
    ensures var tags := ToCreationPayload(values, outgoing).tags;
      && (forall i :: 0 <= i < |tags| ==> tags[i] in Strings.Split(values.tags, ',') && !Strings.IsBlank(tags[i]))
      && (forall p :: p in Strings.Split(values.tags, ',') && !Strings.IsBlank(p) ==> p in tags)
      && Seqs.KeepsInOrder(tags, Strings.Split(values.tags, ','), (p: string) => !Strings.IsBlank(p))
  {
    var tags := ToCreationPayload(values, outgoing).tags;
    Strings.SplitNonBlankInOrder(values.tags, ',');
    Seqs.KeepsInOrderSameTest(tags, Strings.Split(values.tags, ','), (p: string) => !Strings.IsBlank(p),
                              (p: string) => !Strings.IsBlank(p));
  }

  /** Editing a post and saving it unchanged sends back its tags, provided none is blank or holds a comma. */
  lemma TagsRoundTrip<V, W>(post: PostFull<V>, languageOptions: seq<SelectOption<string>>,
                            postOptions: seq<SelectOption<int>>, fieldConfigs: seq<FieldConfig>,
                            statusOptions: seq<SelectOption<string>>, createId: nat -> string,
                            createFormField: (FieldConfig, Option<V>) -> FormField<W>, outgoing: FormField<W> -> V)
    requires |statusOptions| > 0
    requires forall i :: 0 <= i < |post.tags| ==> ',' !in post.tags[i] && !Strings.IsBlank(post.tags[i])
    ensures ToCreationPayload(ToFormValues(Some(post), languageOptions, postOptions, fieldConfigs, statusOptions,
                                           createId, createFormField), outgoing).tags == post.tags
  {
    Strings.SplitNonBlankJoin(post.tags, ',');
  }

  /**
   * A published post with an archive date, or a draft with a publish date, opens with the schedule switched
   * on and the date part of that date, and saving it unchanged sends that date back in the same slot.
   */
  lemma ScheduleRoundTrip<V, W>(post: PostFull<V>, languageOptions: seq<SelectOption<string>>,
                                postOptions: seq<SelectOption<int>>, fieldConfigs: seq<FieldConfig>,
                                statusOptions: seq<SelectOption<string>>, createId: nat -> string,
                                createFormField: (FieldConfig, Option<V>) -> FormField<W>, outgoing: FormField<W> -> V)
    requires |statusOptions| > 0
    requires post.status in Values(statusOptions)
    requires (post.status == Published && Truthy(post.archiveAt)) || (post.status == Draft && Truthy(post.publishAt))
    ensures var form := ToFormValues(Some(post), languageOptions, postOptions, fieldConfigs, statusOptions,
                                     createId, createFormField);
      var date := if post.status == Published then post.archiveAt.value else post.publishAt.value;
      var r := ToCreationPayload(form, outgoing);
      && form.statusDateEnabled
      && form.statusDate == Some(Strings.Prefix(date, DateLength))
      && (post.status == Published ==> r.archiveAt == Some(Strings.Prefix(date, DateLength)) && r.publishAt.None?)
      && (post.status == Draft ==> r.publishAt == Some(Strings.Prefix(date, DateLength)) && r.archiveAt.None?)
  {
  }

  /**
   * The form's related posts are the post options whose value is one of the post's related post ids, in
   * option order and each as often as it is offered; its language is the first language option with the
   * post's language code, or none.
   */
  lemma Selections<V, W>(post: PostFull<V>, languageOptions: seq<SelectOption<string>>,
                         postOptions: seq<SelectOption<int>>, fieldConfigs: seq<FieldConfig>,
                         statusOptions: seq<SelectOption<string>>, createId: nat -> string,
                         createFormField: (FieldConfig, Option<V>) -> FormField<W>)
    requires |statusOptions| > 0
    ensures var form := ToFormValues(Some(post), languageOptions, postOptions, fieldConfigs, statusOptions,
                                     createId, createFormField);
      && (forall o :: o in form.relatedPosts <==> o in postOptions && IsRelated(post.relatedPosts, o))
      && Seqs.KeepsInOrder(form.relatedPosts, postOptions, (o: SelectOption<int>) => IsRelated(post.relatedPosts, o))
      && (form.language.None? <==> forall i :: 0 <= i < |languageOptions| ==> languageOptions[i].value != post.language)
      && (form.language.Some? ==>
            exists k :: (0 <= k < |languageOptions| && languageOptions[k] == form.language.value
                         && form.language.value.value == post.language
                         && forall j :: 0 <= j < k ==> languageOptions[j].value != post.language))
  {
    RelatedSelection(postOptions, post.relatedPosts);
  }

  /**
   * Saving an edited post unchanged sends back its category ids in order, its related-post selection, its image
   * ids, its text fields, its date cut to the day, its language code when an option carries it, and a status: its
   * own when the options offer it, the first option's otherwise.
   */
  lemma PayloadRoundTrip<V, W>(post: PostFull<V>, languageOptions: seq<SelectOption<string>>,
                               postOptions: seq<SelectOption<int>>, fieldConfigs: seq<FieldConfig>,
                               statusOptions: seq<SelectOption<string>>, createId: nat -> string,
                               createFormField: (FieldConfig, Option<V>) -> FormField<W>, outgoing: FormField<W> -> V)
    requires |statusOptions| > 0
    ensures var form := ToFormValues(Some(post), languageOptions, postOptions, fieldConfigs, statusOptions,
                                     createId, createFormField);
      var r := ToCreationPayload(form, outgoing);
      && |r.categories| == |post.categories|
      && (forall i :: 0 <= i < |r.categories| ==> r.categories[i] == post.categories[i].id)
      && r.relatedPosts == Values(form.relatedPosts)
      && r.title == post.title && r.excerpt == post.excerpt && r.body == post.body && r.urlAlias == post.urlAlias
      && r.pageTitle == post.pageTitle.GetOr("") && r.pageDescription == post.pageDescription.GetOr("")
      && (r.coverImage.Some? <==> post.coverImage.Some?)
      && (post.coverImage.Some? ==> r.coverImage.value == post.coverImage.value.id)
      && (r.image.Some? <==> post.image.Some?) && (post.image.Some? ==> r.image.value == post.image.value.id)
      && (r.imageMobile.Some? <==> post.imageMobile.Some?)
      && (post.imageMobile.Some? ==> r.imageMobile.value == post.imageMobile.value.id)
      && (r.openGraphImage.Some? <==> post.openGraphImage.Some?)
      && (post.openGraphImage.Some? ==> r.openGraphImage.value == post.openGraphImage.value.id)
      && r.status == (if post.status in Values(statusOptions) then post.status else statusOptions[0].value)
      && r.datetime == (if Truthy(post.datetime) then Strings.Prefix(post.datetime.value, DateLength) else "")
      && (r.language.Some? <==> post.language in Values(languageOptions))
      && (r.language.Some? ==> r.language.value == post.language)
  {
    Selections(post, languageOptions, postOptions, fieldConfigs, statusOptions, createId, createFormField);
  }

  /**
   * When the dynamic-field library keeps a field's schema, the payload carries one entry per configured field,
   * in schema order and under the schema's name, whether or not the post stored a value for it.
   */
  lemma AdditionalFieldNames<V, W>(post: Option<PostFull<V>>, languageOptions: seq<SelectOption<string>>,
                                   postOptions: seq<SelectOption<int>>, fieldConfigs: seq<FieldConfig>,
                                   statusOptions: seq<SelectOption<string>>, createId: nat -> string,
                                   createFormField: (FieldConfig, Option<V>) -> FormField<W>, outgoing: FormField<W> -> V)
    requires |statusOptions| > 0
    requires forall c, v :: createFormField(c, v).config == c
    ensures var r := ToCreationPayload(ToFormValues(post, languageOptions, postOptions, fieldConfigs, statusOptions,
                                                    createId, createFormField), outgoing);
      && |r.additionalFields| == |fieldConfigs|
      && forall i :: 0 <= i < |fieldConfigs| ==> r.additionalFields[i].name == fieldConfigs[i].name
  {
    var form := ToFormValues(post, languageOptions, postOptions, fieldConfigs, statusOptions, createId, createFormField);
    var stored := if post.Some? then Some(post.value.additionalFields) else None;
    assert form.additionalFields == FormFields(fieldConfigs, stored, createFormField);
    FormFieldConfigs(fieldConfigs, stored, createFormField);
  }

  lemma FormFieldConfigs<V, W>(configs: seq<FieldConfig>, stored: Option<seq<AdditionalField<V>>>,
                               createFormField: (FieldConfig, Option<V>) -> FormField<W>)
    requires forall c, v :: createFormField(c, v).config == c
    ensures forall i :: 0 <= i < |configs| ==> FormFields(configs, stored, createFormField)[i].config == configs[i]
  {
  }

  /** A post's stored dynamic value reaches the form field of the schema with the same name. */
  lemma AdditionalFieldValues<V, W>(post: PostFull<V>, fieldConfigs: seq<FieldConfig>,
                                    createFormField: (FieldConfig, Option<V>) -> FormField<W>, i: nat, j: nat)
    requires i < |fieldConfigs| && j < |post.additionalFields|
    requires post.additionalFields[j].name == fieldConfigs[i].name
    requires forall k :: 0 <= k < j ==> post.additionalFields[k].name != fieldConfigs[i].name
    ensures FormFields(fieldConfigs, Some(post.additionalFields), createFormField)[i] ==
            createFormField(fieldConfigs[i], Some(post.additionalFields[j].value))
  {
    var found := Seqs.Find(post.additionalFields, (f: AdditionalField<V>) => f.name == fieldConfigs[i].name);
    assert found.Some?;
    var k :| 0 <= k < |post.additionalFields| && post.additionalFields[k] == found.value
             && found.value.name == fieldConfigs[i].name
             && forall m :: 0 <= m < k ==> post.additionalFields[m].name != fieldConfigs[i].name;
    assert k == j;
  }

  /** The options follow the categories of the chosen language in order, each as often as it occurs. */
  lemma CategoryOptionsInOrder(categories: seq<Category>, languageId: Option<string>)
    ensures Seqs.SelectsInOrder(CategoryOptions(categories, languageId), categories,
                                (c: Category) => InLanguage(languageId, c.language), CategoryOption)
  {
    var p := (c: Category) => InLanguage(languageId, c.language);
    var r := CategoryOptions(categories, languageId);
    Seqs.MapFilterInOrder(categories, p, CategoryOption, r);
  }

  /** Which categories have an option: with a language, those of that language; without one, all, in order. */
  lemma CategoryOptionsMembers(categories: seq<Category>, languageId: Option<string>)
    ensures var r := CategoryOptions(categories, languageId);
      && (!Truthy(languageId) ==>
            (|r| == |categories| &&
             forall i :: 0 <= i < |r| ==> r[i].value == categories[i].id &&
                                          r[i].caption == Common.NameWithDepth(categories[i].name, categories[i].depth)))
      && (Truthy(languageId) ==> forall c :: c in categories && c.language == languageId.value ==>
            SelectOption(c.id, Common.NameWithDepth(c.name, c.depth)) in r)
      && (forall o :: o in r ==>
            exists c :: (c in categories && (Truthy(languageId) ==> c.language == languageId.value)
                         && o == SelectOption(c.id, Common.NameWithDepth(c.name, c.depth))))
  {
    var p := (c: Category) => InLanguage(languageId, c.language);
    var kept := Seqs.Filter(categories, p);
    var r := CategoryOptions(categories, languageId);
    if !Truthy(languageId) {
      Seqs.FilterAll(categories, p);
    } else {
      forall c | c in categories && c.language == languageId.value
        ensures SelectOption(c.id, Common.NameWithDepth(c.name, c.depth)) in r
      {
        var k :| 0 <= k < |categories| && categories[k] == c;
        assert p(categories[k]);
        var m :| 0 <= m < |kept| && kept[m] == c;
        assert r[m] == SelectOption(c.id, Common.NameWithDepth(c.name, c.depth));
      }
    }
    forall o | o in r
      ensures exists c :: c in categories && (Truthy(languageId) ==> c.language == languageId.value)
                          && o == SelectOption(c.id, Common.NameWithDepth(c.name, c.depth))
    {
      var m :| 0 <= m < |r| && r[m] == o;
      assert kept[m] in categories && p(kept[m]);
    }
  }

  /**
   * The category options keep exactly the categories of the chosen language, in order and each as often as it
   * occurs, labelled with their depth; with no language chosen (or an empty one) every category is kept.
   */
  lemma CategoryOptionsSelection(categories: seq<Category>, languageId: Option<string>)
    ensures var r := CategoryOptions(categories, languageId);
      && (!Truthy(languageId) ==>
            (|r| == |categories| &&
             forall i :: 0 <= i < |r| ==> r[i].value == categories[i].id &&
                                          r[i].caption == Common.NameWithDepth(categories[i].name, categories[i].depth)))
      && (Truthy(languageId) ==> forall c :: c in categories && c.language == languageId.value ==>
            SelectOption(c.id, Common.NameWithDepth(c.name, c.depth)) in r)
      && (forall o :: o in r ==>
            exists c :: (c in categories && (Truthy(languageId) ==> c.language == languageId.value)
                         && o == SelectOption(c.id, Common.NameWithDepth(c.name, c.depth))))
      && Seqs.SelectsInOrder(r, categories, (c: Category) => InLanguage(languageId, c.language), CategoryOption)
  {
    CategoryOptionsMembers(categories, languageId);
    CategoryOptionsInOrder(categories, languageId);
  }
}
