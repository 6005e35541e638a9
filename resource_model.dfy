/** The learning-resource document (server/models/Resource.js): its three enumerations,
    required fields, defaults, and what creation and field updates yield. */
module ResourceModel {
  import opened Common
  import opened Text

  datatype ResourceCategory = BusinessSkills | CraftTechniques | Marketing
                            | DigitalLiteracy | LegalFinance | OtherTopic

  function ResourceCategoryName(c: ResourceCategory): string {
    match c
    case BusinessSkills => "Business Skills"
    case CraftTechniques => "Craft Techniques"
    case Marketing => "Marketing"
    case DigitalLiteracy => "Digital Literacy"
    case LegalFinance => "Legal & Finance"
    case OtherTopic => "Other"
  }

  function ParseResourceCategory(name: string): (r: Option<ResourceCategory>)
    ensures r.Some? ==> ResourceCategoryName(r.value) == name
  {
    if name == "Business Skills" then Some(BusinessSkills)
    else if name == "Craft Techniques" then Some(CraftTechniques)
    else if name == "Marketing" then Some(Marketing)
    else if name == "Digital Literacy" then Some(DigitalLiteracy)
    else if name == "Legal & Finance" then Some(LegalFinance)
    else if name == "Other" then Some(OtherTopic)
    else None
  }

  datatype ResourceType = Video | Pdf | Article | ExternalLink | Course

  function ResourceTypeName(t: ResourceType): string {
    match t
    case Video => "video"
    case Pdf => "pdf"
    case Article => "article"
    case ExternalLink => "external-link"
    case Course => "course"
  }

  function ParseResourceType(name: string): (r: Option<ResourceType>)
    ensures r.Some? ==> ResourceTypeName(r.value) == name
  {
    if name == "video" then Some(Video)
    else if name == "pdf" then Some(Pdf)
    else if name == "article" then Some(Article)
    else if name == "external-link" then Some(ExternalLink)
    else if name == "course" then Some(Course)
    else None
  }

  datatype Level = Beginner | Intermediate | Advanced

  function LevelName(l: Level): string {
    match l
    case Beginner => "beginner"
    case Intermediate => "intermediate"
    case Advanced => "advanced"
  }

  function ParseLevel(name: string): (r: Option<Level>)
    ensures r.Some? ==> LevelName(r.value) == name
  {
    if name == "beginner" then Some(Beginner)
    else if name == "intermediate" then Some(Intermediate)
    else if name == "advanced" then Some(Advanced)
    else None
  }

  /** Exactly the listed names are accepted, each naming its own value. */
  lemma ResourceEnumsExact(c: ResourceCategory, t: ResourceType, l: Level, name: string)
    ensures ParseResourceCategory(ResourceCategoryName(c)) == Some(c)
    ensures ParseResourceType(ResourceTypeName(t)) == Some(t)
    ensures ParseLevel(LevelName(l)) == Some(l)
    ensures ParseResourceCategory(name).Some? <==>
      name in {"Business Skills", "Craft Techniques", "Marketing", "Digital Literacy", "Legal & Finance", "Other"}
    ensures ParseResourceType(name).Some? <==> name in {"video", "pdf", "article", "external-link", "course"}
    ensures ParseLevel(name).Some? <==> name in {"beginner", "intermediate", "advanced"}
  {
  }

  const MaxDescription := 1000

  datatype Resource = Resource(
    id: Id,
    title: string,
    description: string,
    category: ResourceCategory,
    kind: ResourceType,
    url: string,
    thumbnail: string,
    duration: Option<string>,
    level: Level,
    tags: seq<string>,
    author: Option<string>,
    views: int,
    isActive: bool,
    addedBy: Option<Id>,
    createdAt: nat)

  /** What the schema guarantees of every stored resource. */
  predicate ValidResource(r: Resource) {
    && r.title != "" && IsTrimmed(r.title)
    && r.description != "" && JsLength(r.description) <= MaxDescription
    && r.url != ""
    && (forall t :: t in r.tags ==> IsTrimmed(t))
    && (r.author.Some? ==> IsTrimmed(r.author.value))
  }

  /** The fields of a creation payload, once the handler has set `addedBy`. */
  datatype ResourceInput = ResourceInput(
    title: Option<string>,
    description: Option<string>,
    category: Option<string>,
    kind: Option<string>,
    url: Option<string>,
    thumbnail: Option<string>,
    duration: Option<string>,
    level: Option<string>,
    tags: Option<seq<string>>,
    author: Option<string>,
    views: Option<int>,
    isActive: Option<bool>,
    addedBy: Option<Id>)

  predicate AcceptableInput(p: ResourceInput) {
    && p.title.Some? && Trim(p.title.value) != ""
    && p.description.Some? && p.description.value != "" && JsLength(p.description.value) <= MaxDescription
    && p.category.Some? && ParseResourceCategory(p.category.value).Some?
    && p.kind.Some? && ParseResourceType(p.kind.value).Some?
    && p.url.Some? && p.url.value != ""
    && (p.level.Some? ==> ParseLevel(p.level.value).Some?)
  }

  function TrimOpt(s: Option<string>): (r: Option<string>)
    ensures r.Some? <==> s.Some?
    ensures r.Some? ==> IsTrimmed(r.value)
  {
    match s
    case None => None
    case Some(v) => TrimSpec(v); Some(Trim(v))
  }

  /** `Resource.create(data)` with the given id and creation time. */
  function CreateDocument(p: ResourceInput, id: Id, now: nat): (r: Outcome<Resource>)
    ensures r.Ok? || r.Invalid?
    ensures r.Ok? ==> ValidResource(r.value) && r.value.id == id
  {
    if !AcceptableInput(p) then Invalid
    else
      TrimSpec(p.title.value);
      TrimEachTrimmed(p.tags.GetOr([]));
      Ok(Resource(
        id := id,
        title := Trim(p.title.value),
        description := p.description.value,
        category := ParseResourceCategory(p.category.value).value,
        kind := ParseResourceType(p.kind.value).value,
        url := p.url.value,
        thumbnail := p.thumbnail.GetOr(""),
        duration := p.duration,
        level := if p.level.Some? then ParseLevel(p.level.value).value else Beginner,
        tags := TrimEach(p.tags.GetOr([])),
        author := TrimOpt(p.author),
        views := p.views.GetOr(0),
        isActive := p.isActive.GetOr(true),
        addedBy := p.addedBy,
        createdAt := now))
  }

  /** Creation succeeds exactly when the validators accept the payload; every supplied field is
      stored (title, author and tags trimmed, category, type and level being the values their
      names denote), and level defaults to beginner, thumbnail to '', views to 0 and isActive
      to true. */
  lemma CreateDocumentSpec(p: ResourceInput, id: Id, now: nat)
    ensures CreateDocument(p, id, now).Ok? <==> AcceptableInput(p)
    ensures var r := CreateDocument(p, id, now); r.Ok? ==>
      && r.value.title == Trim(p.title.value)
      && r.value.description == p.description.value
      && r.value.url == p.url.value
      && r.value.addedBy == p.addedBy
      && r.value.createdAt == now
      && (p.level.None? ==> r.value.level == Beginner)
      && (p.thumbnail.None? ==> r.value.thumbnail == "")
      && (p.views.None? ==> r.value.views == 0)
      && (p.isActive.None? ==> r.value.isActive)
      && ResourceCategoryName(r.value.category) == p.category.value
      && ResourceTypeName(r.value.kind) == p.kind.value
      && (p.level.Some? ==> LevelName(r.value.level) == p.level.value)
      && (p.thumbnail.Some? ==> r.value.thumbnail == p.thumbnail.value)
      && r.value.tags == TrimEach(p.tags.GetOr([]))
      && (p.author.Some? ==> r.value.author == Some(Trim(p.author.value)))
      && (p.author.None? ==> r.value.author.None?)
      && r.value.duration == p.duration
      && (p.views.Some? ==> r.value.views == p.views.value)
      && (p.isActive.Some? ==> r.value.isActive == p.isActive.value)
  {
  }

  /** The fields of an update body; each replaces the stored field when present. */
  datatype ResourcePatch = ResourcePatch(
    title: Option<string>,
    description: Option<string>,
    category: Option<string>,
    kind: Option<string>,
    url: Option<string>,
    thumbnail: Option<string>,
    duration: Option<string>,
    level: Option<string>,
    tags: Option<seq<string>>,
    author: Option<string>,
    views: Option<int>,
    isActive: Option<bool>,
    addedBy: Option<Id>)

  const NoChange := ResourcePatch(None, None, None, None, None, None, None, None, None, None, None, None, None)

  /** The update validators run on the fields the body sets. */
  predicate AcceptablePatch(u: ResourcePatch) {
    && (u.title.Some? ==> Trim(u.title.value) != "")
    && (u.description.Some? ==> u.description.value != "" && JsLength(u.description.value) <= MaxDescription)
    && (u.category.Some? ==> ParseResourceCategory(u.category.value).Some?)
    && (u.kind.Some? ==> ParseResourceType(u.kind.value).Some?)
    && (u.url.Some? ==> u.url.value != "")
    && (u.level.Some? ==> ParseLevel(u.level.value).Some?)
  }

  function ApplyPatch(r: Resource, u: ResourcePatch): Resource
    requires AcceptablePatch(u)
  {
    r.(title := if u.title.Some? then Trim(u.title.value) else r.title,
       description := u.description.GetOr(r.description),
       category := if u.category.Some? then ParseResourceCategory(u.category.value).value else r.category,
       kind := if u.kind.Some? then ParseResourceType(u.kind.value).value else r.kind,
       url := u.url.GetOr(r.url),
       thumbnail := u.thumbnail.GetOr(r.thumbnail),
       duration := if u.duration.Some? then u.duration else r.duration,
       level := if u.level.Some? then ParseLevel(u.level.value).value else r.level,
       tags := if u.tags.Some? then TrimEach(u.tags.value) else r.tags,
       author := if u.author.Some? then TrimOpt(u.author) else r.author,
       views := u.views.GetOr(r.views),
       isActive := u.isActive.GetOr(r.isActive),
       addedBy := if u.addedBy.Some? then u.addedBy else r.addedBy)
  }

  /** An accepted update keeps the schema's guarantees, id and creation time, and an empty
      body changes nothing. */
  lemma ApplyPatchSpec(r: Resource, u: ResourcePatch)
    requires ValidResource(r) && AcceptablePatch(u)
    ensures var q := ApplyPatch(r, u);
      && ValidResource(q)
      && q.id == r.id && q.createdAt == r.createdAt
      && (u == NoChange ==> q == r)
  {
    var q := ApplyPatch(r, u);
    if u.title.Some? {
      TrimSpec(u.title.value);
    }
    if u.tags.Some? {
      TrimEachTrimmed(u.tags.value);
    }
    assert forall t :: t in q.tags ==> IsTrimmed(t);
    assert q.author.Some? ==> IsTrimmed(q.author.value);
    if u == NoChange {
      assert q.title == r.title && q.tags == r.tags && q.author == r.author;
    }
  }

  /** Field by field: a field the body sets is replaced (title and author trimmed, category,
      type and level being the values their given names denote, tags trimmed); a field it
      omits keeps its stored value. */
  lemma ApplyPatchFields(r: Resource, u: ResourcePatch)
    requires AcceptablePatch(u)
    ensures var q := ApplyPatch(r, u);
      && (u.title.Some? ==> q.title == Trim(u.title.value)) && (u.title.None? ==> q.title == r.title)
      && (u.description.Some? ==> q.description == u.description.value)
      && (u.description.None? ==> q.description == r.description)
      && (u.category.Some? ==> ResourceCategoryName(q.category) == u.category.value)
      && (u.category.None? ==> q.category == r.category)
      && (u.kind.Some? ==> ResourceTypeName(q.kind) == u.kind.value) && (u.kind.None? ==> q.kind == r.kind)
      && (u.url.Some? ==> q.url == u.url.value) && (u.url.None? ==> q.url == r.url)
      && (u.thumbnail.Some? ==> q.thumbnail == u.thumbnail.value)
      && (u.thumbnail.None? ==> q.thumbnail == r.thumbnail)
      && (u.duration.Some? ==> q.duration == u.duration) && (u.duration.None? ==> q.duration == r.duration)
      && (u.level.Some? ==> LevelName(q.level) == u.level.value) && (u.level.None? ==> q.level == r.level)
      && (u.tags.Some? ==> q.tags == TrimEach(u.tags.value)) && (u.tags.None? ==> q.tags == r.tags)
      && (u.author.Some? ==> q.author == Some(Trim(u.author.value))) && (u.author.None? ==> q.author == r.author)
      && (u.views.Some? ==> q.views == u.views.value) && (u.views.None? ==> q.views == r.views)
      && (u.isActive.Some? ==> q.isActive == u.isActive.value) && (u.isActive.None? ==> q.isActive == r.isActive)
      && (u.addedBy.Some? ==> q.addedBy == u.addedBy) && (u.addedBy.None? ==> q.addedBy == r.addedBy)
  {
  }
}
