// The template tools of the `crates/vantage-atom` MCP server
// (crates/vantage-atom/src/lib.rs): create, list, get, update and delete
// templates, and create a process from one.  The database is either absent
// or a template table; a database that fails fails every query with the
// same message.  The process manager's answer to the create request is a
// parameter.

module AtomTools {
  import opened Common
  import opened SurrealTables
  import opened TemplateRepository
  import opened ToolMessages

  /// The database connection the server may or may not hold: the template
  /// table and, when the database is failing, the error every query gets.
  datatype Db = Db(rows: seq<Template>, fault: Option<string>)

  /// A tool's answer: a confirmation (with the record id's text when the
  /// tool reports one), the templates found, or an MCP error.
  datatype Reply =
    | Confirmed(message: string, templateId: Option<string>)
    | Listed(templates: seq<Template>)
    | Failure(error: McpError)

  /// The answer together with the template table afterwards.
  datatype Outcome = Outcome(rows: seq<Template>, reply: Reply)

  const NoDb := "Database connection not available"
  const NoDbOnCreate := "Database connection not available. Please ensure SurrealDB is running."

  function Refused(code: int, message: string): Reply
  {
    Failure(McpError(code, message))
  }

  // ---------------------------------------------------------------------
  // Categories

  /// The category a request names: compared after lower-casing, with or
  /// without the underscore, anything unknown being `Other`.
  function CategoryOf(s: string): Category
  {
    CategoryOfLower(AsciiLowercase(s))
  }

  /// The match on the lower-cased name.
  function CategoryOfLower(l: string): Category
  {
    if l == "database" then Database
    else if l == "web_server" || l == "webserver" then WebServer
    else if l == "build_tool" || l == "buildtool" then BuildTool
    else if l == "script" then Script
    else Other
  }

  /// Only the lower-cased spelling decides the category.
  lemma CategoryIgnoresCase(s: string)
    ensures CategoryOf(s) == CategoryOf(AsciiLowercase(s))
  {
    assert AsciiLowercase(AsciiLowercase(s)) == AsciiLowercase(s);
  }

  /// A request's optional category: none given is `Other`.
  function CategoryOrOther(s: Option<string>): (c: Category)
    ensures s.None? ==> c == Other
    ensures s.Some? ==> c == CategoryOf(s.value)
  {
    if s.Some? then CategoryOf(s.value) else Other
  }

  /// The name a category is stored under reads back as that category.
  lemma CategoryNameRoundTrip(c: Category)
    ensures CategoryOf(CategoryName(c)) == c
  {
    assert AsciiLowercase(CategoryName(c)) == CategoryName(c);
  }

  /// A category's stored name with its underscore left out.
  function Unscored(name: string): string
  {
    Kept(name, (ch: char) => ch != '_')
  }

  /// Any name equal, ignoring ASCII case, to a category's stored name, or
  /// to that name without its underscore, reads as that category.
  lemma CategorySpellings(s: string, c: Category)
    ensures EqIgnoreAsciiCase(s, CategoryName(c)) ==> CategoryOf(s) == c
    ensures EqIgnoreAsciiCase(s, Unscored(CategoryName(c))) ==> CategoryOf(s) == c
  {
    CategoryNameRoundTrip(c);
    UnscoredRoundTrip(c);
  }

  /// A stored name without its underscore reads back as its category.
  lemma UnscoredRoundTrip(c: Category)
    ensures CategoryOf(Unscored(CategoryName(c))) == c
  {
    match c {
      case WebServer => UnscoredWebServer();
      case BuildTool => UnscoredBuildTool();
      case _ =>
        UnscoredNone(CategoryName(c));
        CategoryNameRoundTrip(c);
    }
  }

  lemma UnscoredWebServer()
    ensures CategoryOf(Unscored(CategoryName(WebServer))) == WebServer
  {
    BareWebServer();
    ReadsWebServer();
  }

  lemma BareWebServer()
    ensures Unscored(CategoryName(WebServer)) == "webserver"
  {
    assert CategoryName(WebServer) == "web" + "_" + "server";
    UnscoredStep("web", "server");
    assert "web" + "server" == "webserver";
  }

  lemma ReadsWebServer()
    ensures CategoryOf("webserver") == WebServer
  {
    LowerFixed("webserver");
  }

  lemma UnscoredBuildTool()
    ensures CategoryOf(Unscored(CategoryName(BuildTool))) == BuildTool
  {
    BareBuildTool();
    ReadsBuildTool();
  }

  lemma BareBuildTool()
    ensures Unscored(CategoryName(BuildTool)) == "buildtool"
  {
    assert CategoryName(BuildTool) == "build" + "_" + "tool";
    UnscoredStep("build", "tool");
    assert "build" + "tool" == "buildtool";
  }

  lemma ReadsBuildTool()
    ensures CategoryOf("buildtool") == BuildTool
  {
    LowerFixed("buildtool");
  }

  /// A text without upper-case ASCII letters is its own lower-casing.
  lemma LowerFixed(s: string)
    requires forall i :: 0 <= i < |s| ==> !('A' <= s[i] <= 'Z')
    ensures AsciiLowercase(s) == s
  {
  }

  /// Leaving out the one underscore between two plain words.
  lemma UnscoredStep(a: string, b: string)
    requires '_' !in a && '_' !in b
    ensures Unscored(a + "_" + b) == a + b
  {
    KeptAppend(a + "_", b, (ch: char) => ch != '_');
    KeptAppend(a, "_", (ch: char) => ch != '_');
    UnscoredNone(a);
    UnscoredNone(b);
  }

  /// A name without an underscore is left as it is.
  lemma UnscoredNone(s: string)
    requires '_' !in s
    ensures Unscored(s) == s
  {
    KeptMembers(s, (ch: char) => ch != '_');
  }

  // ---------------------------------------------------------------------
  // create_template

  datatype CreateRequest = CreateRequest(
    name: string, description: Option<string>, category: Option<string>, command: string,
    args: Option<seq<string>>, env: Option<map<string, string>>, cwd: Option<string>,
    tags: Option<seq<string>>)

  /// The template a create request describes: absent lists and maps are
  /// empty, and the rest is as given.
  function FromRequest(req: CreateRequest): (t: Template)
    ensures Unsaved(t) && t.name == req.name && t.command == req.command
    ensures t.description == req.description && t.cwd == req.cwd
    ensures t.category == CategoryOrOther(req.category)
    ensures t.args == (if req.args.Some? then req.args.value else [])
    ensures t.env == (if req.env.Some? then req.env.value else map[])
    ensures t.tags == (if req.tags.Some? then req.tags.value else [])
  {
    var t := New(req.name, req.command);
    Template(t.id, t.name, req.description, CategoryOrOther(req.category), Pick(req.tags, t.tags),
             t.command, Pick(req.args, t.args), Pick(req.env, t.env), req.cwd,
             t.createdAt, t.updatedAt, t.createdBy, t.useCount, t.lastUsedAt)
  }

  const CreateFailed := "Failed to create template: "

  function DuplicateName(name: string): string
  {
    "Template with name '" + name + "' already exists. Please use a different name or update the existing template."
  }

  function CreatedMessage(name: string): string
  {
    "Template '" + name + "' created successfully"
  }

  /// `create_template`.  A failing name check does not refuse the request;
  /// the failing database then refuses the creation itself.
  function CreateTemplate(db: Option<Db>, req: CreateRequest, freshKey: string): (o: Outcome)
    requires db.Some? ==> !HasKey(db.value.rows, KeyOf, freshKey)
    ensures db.None? ==> o.reply == Refused(INTERNAL_ERROR, NoDbOnCreate)
    ensures db.Some? && db.value.fault.None? && GetByName(db.value.rows, req.name).Some? ==>
              o.reply == Refused(INVALID_PARAMS, DuplicateName(req.name))
    ensures db.Some? && db.value.fault.Some? ==>
              o.reply == Refused(INTERNAL_ERROR, CreateFailed + db.value.fault.value)
    ensures o.reply.Confirmed? <==> db.Some? && db.value.fault.None? && GetByName(db.value.rows, req.name).None?
    ensures o.reply.Confirmed? ==>
              o.rows == db.value.rows + [Stored(FromRequest(req), freshKey)] &&
              o.reply.templateId == Some(TablePrefix + freshKey)
    ensures !o.reply.Confirmed? ==> o.rows == (if db.Some? then db.value.rows else [])
  {
    if db.None? then Outcome([], Refused(INTERNAL_ERROR, NoDbOnCreate))
    else if db.value.fault.None? && GetByName(db.value.rows, req.name).Some? then
      Outcome(db.value.rows, Refused(INVALID_PARAMS, DuplicateName(req.name)))
    else if db.value.fault.Some? then
      Outcome(db.value.rows, Refused(INTERNAL_ERROR, CreateFailed + db.value.fault.value))
    else
      var rows := Create(db.value.rows, FromRequest(req), freshKey);
      TemplateRecordText(freshKey);
      Outcome(rows, Confirmed(CreatedMessage(req.name),
                              Some(RecordIdText(RecordId(TableName, freshKey)))))
  }

  /// A created template is found by its name and by its key, and creating
  /// a second one with the same name is refused.
  lemma CreatedThenNameTaken(db: Db, req: CreateRequest, freshKey: string, req2: CreateRequest, key2: string)
    requires Valid(db.rows) && !HasKey(db.rows, KeyOf, freshKey)
    requires CreateTemplate(Some(db), req, freshKey).reply.Confirmed?
    requires req2.name == req.name
    requires !HasKey(CreateTemplate(Some(db), req, freshKey).rows, KeyOf, key2)
    ensures var rows := CreateTemplate(Some(db), req, freshKey).rows;
            Valid(rows) &&
            GetByName(rows, req.name) == Some(Stored(FromRequest(req), freshKey)) &&
            Get(rows, freshKey) == Some(Stored(FromRequest(req), freshKey)) &&
            CreateTemplate(Some(Db(rows, None)), req2, key2).reply == Refused(INVALID_PARAMS, DuplicateName(req.name))
  {
    CreatedIsFound(db.rows, FromRequest(req), freshKey);
  }

  // ---------------------------------------------------------------------
  // list_templates

  /// `list_templates`: by category when one is given, else by tag when one
  /// is given, else every template.
  function ListTemplates(db: Option<Db>, category: Option<string>, tag: Option<string>): (r: Reply)
    ensures db.None? ==> r == Refused(INTERNAL_ERROR, NoDb)
    ensures db.Some? && db.value.fault.Some? ==>
              r == Refused(INTERNAL_ERROR, "Failed to list templates: " + db.value.fault.value)
    ensures r.Listed? <==> db.Some? && db.value.fault.None?
    ensures r.Listed? && category.Some? ==>
              forall t :: t in r.templates <==> t in db.value.rows && t.category == CategoryOf(category.value)
    ensures r.Listed? && category.None? && tag.Some? ==>
              forall t :: t in r.templates <==> t in db.value.rows && tag.value in t.tags
    ensures r.Listed? && category.None? && tag.None? ==> r.templates == db.value.rows
  {
    if db.None? then Refused(INTERNAL_ERROR, NoDb)
    else if db.value.fault.Some? then Refused(INTERNAL_ERROR, "Failed to list templates: " + db.value.fault.value)
    else if category.Some? then Listed(ListByCategory(db.value.rows, CategoryOf(category.value)))
    else if tag.Some? then Listed(SearchByTag(db.value.rows, tag.value))
    else Listed(db.value.rows)
  }

  /// A category makes any tag irrelevant.
  lemma CategoryWinsOverTag(db: Option<Db>, c: string, tag1: Option<string>, tag2: Option<string>)
    ensures ListTemplates(db, Some(c), tag1) == ListTemplates(db, Some(c), tag2)
  {
  }

  // ---------------------------------------------------------------------
  // Choosing a template by id or by name

  datatype Selector = ById(id: string) | ByName(name: string) | Neither

  /// The id wins over the name; with neither the request is refused.
  function Select(id: Option<string>, name: Option<string>): (s: Selector)
    ensures id.Some? ==> s == ById(id.value)
    ensures id.None? && name.Some? ==> s == ByName(name.value)
    ensures s.Neither? <==> id.None? && name.None?
  {
    if id.Some? then ById(id.value) else if name.Some? then ByName(name.value) else Neither
  }

  /// The template a selector finds: by key or as the first with the name.
  function Lookup(rows: seq<Template>, s: Selector): (r: Option<Template>)
    requires !s.Neither?
    ensures r.Some? ==> r.value in rows
    ensures s.ById? ==> r == Get(rows, s.id)
    ensures s.ByName? ==> r == GetByName(rows, s.name)
  {
    if s.ById? then Get(rows, s.id) else GetByName(rows, s.name)
  }

  const EitherIdOrName := "Either 'id' or 'name' must be provided"

  /// `get_template`.
  function GetTemplate(db: Option<Db>, id: Option<string>, name: Option<string>): (r: Reply)
    ensures db.None? ==> r == Refused(INTERNAL_ERROR, NoDb)
    ensures db.Some? && id.None? && name.None? ==> r == Refused(INVALID_PARAMS, EitherIdOrName)
    ensures db.Some? && !Select(id, name).Neither? && db.value.fault.Some? ==>
              r == Refused(INTERNAL_ERROR, "Failed to get template: " + db.value.fault.value)
    ensures r.Listed? <==>
              db.Some? && !Select(id, name).Neither? && db.value.fault.None? &&
              Lookup(db.value.rows, Select(id, name)).Some?
    ensures r.Listed? ==> r.templates == [Lookup(db.value.rows, Select(id, name)).value]
    ensures db.Some? && !Select(id, name).Neither? && db.value.fault.None? &&
            Lookup(db.value.rows, Select(id, name)).None? ==>
              r == Refused(INVALID_PARAMS, "Template not found")
  {
    if db.None? then Refused(INTERNAL_ERROR, NoDb)
    else
      var s := Select(id, name);
      if s.Neither? then Refused(INVALID_PARAMS, EitherIdOrName)
      else if db.value.fault.Some? then Refused(INTERNAL_ERROR, "Failed to get template: " + db.value.fault.value)
      else
        match Lookup(db.value.rows, s)
        case None => Refused(INVALID_PARAMS, "Template not found")
        case Some(t) => Listed([t])
  }

  /// Given an id, the name plays no part.
  lemma IdWinsOverName(db: Option<Db>, id: string, name1: Option<string>, name2: Option<string>)
    ensures GetTemplate(db, Some(id), name1) == GetTemplate(db, Some(id), name2)
  {
  }

  // ---------------------------------------------------------------------
  // update_template

  datatype UpdateRequest = UpdateRequest(
    id: string, name: Option<string>, command: Option<string>, description: Option<string>,
    category: Option<string>, tags: Option<seq<string>>, args: Option<seq<string>>,
    env: Option<map<string, string>>, cwd: Option<string>)

  /// The fetched template with every attribute the request gives
  /// overwritten; the record id, timestamps and use count stay.
  function Updated(t: Template, req: UpdateRequest): (u: Template)
    ensures u.id == t.id && u.createdAt == t.createdAt && u.updatedAt == t.updatedAt
    ensures u.useCount == t.useCount && u.lastUsedAt == t.lastUsedAt && u.createdBy == t.createdBy
    ensures u.name == (if req.name.Some? then req.name.value else t.name)
    ensures u.command == (if req.command.Some? then req.command.value else t.command)
    ensures u.description == (if req.description.Some? then req.description else t.description)
    ensures u.category == (if req.category.Some? then CategoryOf(req.category.value) else t.category)
    ensures u.tags == (if req.tags.Some? then req.tags.value else t.tags)
    ensures u.args == (if req.args.Some? then req.args.value else t.args)
    ensures u.env == (if req.env.Some? then req.env.value else t.env)
    ensures u.cwd == (if req.cwd.Some? then req.cwd else t.cwd)
  {
    Template(t.id, Pick(req.name, t.name), Or(req.description, t.description),
             if req.category.Some? then CategoryOf(req.category.value) else t.category,
             Pick(req.tags, t.tags), Pick(req.command, t.command), Pick(req.args, t.args),
             Pick(req.env, t.env), Or(req.cwd, t.cwd),
             t.createdAt, t.updatedAt, t.createdBy, t.useCount, t.lastUsedAt)
  }

  /// The given value, or the current one when none is given.
  function Pick<T>(given: Option<T>, current: T): T
  {
    if given.Some? then given.value else current
  }

  /// A request that gives nothing leaves the template as it was.
  lemma UpdateWithNothingChangesNothing(t: Template, id: string)
    ensures Updated(t, UpdateRequest(id, None, None, None, None, None, None, None, None)) == t
  {
  }

  /// The later of two updates wins attribute by attribute: applying `a`
  /// then `b` is applying `b` with `a` filling the attributes `b` leaves out.
  function Or<T>(b: Option<T>, a: Option<T>): Option<T>
  {
    if b.Some? then b else a
  }

  lemma UpdatesCompose(t: Template, a: UpdateRequest, b: UpdateRequest)
    ensures Updated(Updated(t, a), b) ==
            Updated(t, UpdateRequest(b.id, Or(b.name, a.name), Or(b.command, a.command),
                                     Or(b.description, a.description), Or(b.category, a.category),
                                     Or(b.tags, a.tags), Or(b.args, a.args), Or(b.env, a.env), Or(b.cwd, a.cwd)))
  {
  }

  /// `update_template`: fetch by key, overwrite the given attributes, and
  /// merge the result back.
  function UpdateTemplate(db: Option<Db>, req: UpdateRequest): (o: Outcome)
    ensures db.None? ==> o.reply == Refused(INTERNAL_ERROR, NoDb)
    ensures db.Some? && db.value.fault.Some? ==>
              o.reply == Refused(INTERNAL_ERROR, "Failed to get template: " + db.value.fault.value)
    ensures db.Some? && db.value.fault.None? && Get(db.value.rows, req.id).None? ==>
              o.reply == Refused(INVALID_PARAMS, "Template with ID '" + req.id + "' not found")
    ensures o.reply.Confirmed? <==> db.Some? && db.value.fault.None? && Get(db.value.rows, req.id).Some?
    ensures o.reply.Confirmed? ==>
              o.rows == Update(db.value.rows, req.id, Updated(Get(db.value.rows, req.id).value, req)).value.0
    ensures !o.reply.Confirmed? ==> o.rows == (if db.Some? then db.value.rows else [])
  {
    if db.None? then Outcome([], Refused(INTERNAL_ERROR, NoDb))
    else if db.value.fault.Some? then
      Outcome(db.value.rows, Refused(INTERNAL_ERROR, "Failed to get template: " + db.value.fault.value))
    else
      match Get(db.value.rows, req.id)
      case None => Outcome(db.value.rows, Refused(INVALID_PARAMS, "Template with ID '" + req.id + "' not found"))
      case Some(t) =>
        var u := Update(db.value.rows, req.id, Updated(t, req));
        var stored := u.value.1;
        Outcome(u.value.0, Confirmed("Template updated successfully",
                                     if stored.id.Some? then Some(RecordIdText(stored.id.value)) else None))
  }

  /// After an update the template holds the request's attributes and
  /// nothing else in the table changes.
  lemma UpdateTemplateStoresUpdate(db: Db, req: UpdateRequest, other: string)
    requires Valid(db.rows) && db.fault.None?
    requires Get(db.rows, req.id).Some?
    ensures var rows := UpdateTemplate(Some(db), req).rows;
            Valid(rows) &&
            Get(rows, req.id) == Some(Updated(Get(db.rows, req.id).value, req)) &&
            (other != req.id ==> Get(rows, other) == Get(db.rows, other))
  {
    var t := Get(db.rows, req.id).value;
    UpdateReplacesOnlyKey(db.rows, req.id, Updated(t, req), other);
    assert Merge(t, Updated(t, req)) == Updated(t, req);
  }

  // ---------------------------------------------------------------------
  // delete_template

  /// The text a stored template's record id is turned into before it is
  /// passed on as a key: as written, the whole record id; corrected, the
  /// key alone.
  function AddressOf(r: RecordId, asWritten: bool): (a: string)
    ensures !asWritten && r.table == TableName ==> a == r.key
  {
    if asWritten then RecordIdText(r)
    else if r.table == TableName then
      KeyFromRecordText(r);
      StripPrefix(RecordIdText(r), TablePrefix)
    else StripPrefix(RecordIdText(r), TablePrefix)
  }

  /// `delete_template`, with the by-name path's key chosen by `asWritten`.
  function DeleteTemplateWith(db: Option<Db>, id: Option<string>, name: Option<string>, asWritten: bool): (o: Outcome)
    ensures db.None? ==> o.reply == Refused(INTERNAL_ERROR, NoDb)
    ensures db.Some? && id.None? && name.None? ==> o.reply == Refused(INVALID_PARAMS, EitherIdOrName)
    ensures db.Some? && id.Some? ==>
              o.rows == (if db.value.fault.Some? then db.value.rows else Delete(db.value.rows, id.value))
    ensures db.Some? && id.None? && name.Some? && db.value.fault.None? && GetByName(db.value.rows, name.value).None? ==>
              o.reply == Refused(INVALID_PARAMS, "Template '" + name.value + "' not found")
    ensures o.reply.Confirmed? ==>
              o.reply.message == "Template '" + (if id.Some? then id.value else name.value) + "' deleted successfully"
    ensures o.reply.Confirmed? <==>
              db.Some? && db.value.fault.None? &&
              (id.Some? || (name.Some? && GetByName(db.value.rows, name.value).Some? &&
                            GetByName(db.value.rows, name.value).value.id.Some?))
  {
    if db.None? then Outcome([], Refused(INTERNAL_ERROR, NoDb))
    else
      var rows := db.value.rows;
      if id.Some? then
        if db.value.fault.Some? then
          Outcome(rows, Refused(INTERNAL_ERROR, "Failed to delete template: " + db.value.fault.value))
        else
          Outcome(Delete(rows, id.value), Confirmed("Template '" + id.value + "' deleted successfully", None))
      else if name.Some? then
        if db.value.fault.Some? then
          Outcome(rows, Refused(INTERNAL_ERROR, "Failed to get template: " + db.value.fault.value))
        else
          match GetByName(rows, name.value)
          case None => Outcome(rows, Refused(INVALID_PARAMS, "Template '" + name.value + "' not found"))
          case Some(t) =>
            if t.id.None? then Outcome(rows, Refused(INTERNAL_ERROR, "Template has no ID"))
            else
              Outcome(Delete(rows, AddressOf(t.id.value, asWritten)),
                      Confirmed("Template '" + name.value + "' deleted successfully", None))
      else Outcome(rows, Refused(INVALID_PARAMS, EitherIdOrName))
  }

  /// `delete_template` as the source writes it.
  function DeleteTemplateAsWritten(db: Option<Db>, id: Option<string>, name: Option<string>): (o: Outcome)
    ensures o == DeleteTemplateWith(db, id, name, true)
    ensures o.reply.Confirmed? ==> db.Some? && db.value.fault.None?
  {
    DeleteTemplateWith(db, id, name, true)
  }

  /// `delete_template` passing the template's key on the by-name path.
  function DeleteTemplate(db: Option<Db>, id: Option<string>, name: Option<string>): (o: Outcome)
    ensures o == DeleteTemplateWith(db, id, name, false)
    ensures o.reply.Confirmed? ==> db.Some? && db.value.fault.None?
  {
    DeleteTemplateWith(db, id, name, false)
  }

  /// Keys as the database generates them: no ':' in any of them.
  ghost predicate GeneratedKeys(rows: seq<Template>)
  {
    forall i :: 0 <= i < |rows| ==> ':' !in KeyOf(rows[i])
  }

  /// No stored key is the text of a template record id.
  lemma RecordTextIsNoKey(rows: seq<Template>, r: RecordId)
    requires GeneratedKeys(rows)
    ensures !HasKey(rows, KeyOf, RecordIdText(r))
  {
    var s := RecordIdText(r);
    assert s[|r.table|] == ':';
  }

  /// As written, deleting by name reports success and deletes nothing: the
  /// template is still found under its name and its key.
  lemma DeleteByNameAsWrittenKeepsTemplate(db: Db, name: string)
    requires Valid(db.rows) && GeneratedKeys(db.rows) && db.fault.None?
    requires GetByName(db.rows, name).Some?
    ensures var o := DeleteTemplateAsWritten(Some(db), None, Some(name));
            o.reply == Confirmed("Template '" + name + "' deleted successfully", None) &&
            o.rows == db.rows &&
            GetByName(o.rows, name).Some?
  {
    var t := GetByName(db.rows, name).value;
    assert t.id.Some?;
    RecordTextIsNoKey(db.rows, t.id.value);
  }

  /// Corrected, deleting by name removes the template it names, and only
  /// that template.
  lemma DeleteByNameRemovesTemplate(db: Db, name: string, other: string)
    requires Valid(db.rows) && db.fault.None?
    requires GetByName(db.rows, name).Some?
    ensures var t := GetByName(db.rows, name).value;
            var o := DeleteTemplate(Some(db), None, Some(name));
            o.reply == Confirmed("Template '" + name + "' deleted successfully", None) &&
            t !in o.rows && Get(o.rows, KeyOf(t)).None? &&
            (other != KeyOf(t) ==> Get(o.rows, other) == Get(db.rows, other))
  {
    var t := GetByName(db.rows, name).value;
    assert t.id.Some?;
    DeleteRemovesOnlyKey(db.rows, KeyOf(t), other);
  }

  // ---------------------------------------------------------------------
  // create_process_from_template

  datatype FromTemplateRequest = FromTemplateRequest(
    templateId: Option<string>, templateName: Option<string>, processId: string,
    overrideArgs: Option<seq<string>>, overrideEnv: Option<map<string, string>>,
    overrideCwd: Option<string>, autoStart: Option<bool>)

  /// What is handed to the process manager's `create_process`.
  datatype ProcessRequest = ProcessRequest(
    id: string, command: string, args: seq<string>, env: map<string, string>,
    cwd: Option<string>, autoStart: bool)

  /// The process a template and the request's overrides describe: the
  /// command is always the template's, each override wins over the
  /// template's value, and auto-start is off unless asked for.
  function ProcessFrom(t: Template, req: FromTemplateRequest): (p: ProcessRequest)
    ensures p.id == req.processId && p.command == t.command
    ensures p.args == (if req.overrideArgs.Some? then req.overrideArgs.value else t.args)
    ensures p.env == (if req.overrideEnv.Some? then req.overrideEnv.value else t.env)
    ensures p.cwd == (if req.overrideCwd.Some? then req.overrideCwd else t.cwd)
    ensures p.autoStart <==> req.autoStart == Some(true)
  {
    ProcessRequest(req.processId, t.command,
                   if req.overrideArgs.Some? then req.overrideArgs.value else t.args,
                   if req.overrideEnv.Some? then req.overrideEnv.value else t.env,
                   Or(req.overrideCwd, t.cwd),
                   if req.autoStart.Some? then req.autoStart.value else false)
  }

  /// The result: the process asked for (when the request got that far),
  /// the template table afterwards, and the answer.
  datatype FromTemplate = FromTemplate(created: Option<ProcessRequest>, rows: seq<Template>, reply: Reply)

  /// The template a request for a process finds, when the database answers.
  function Found(db: Option<Db>, req: FromTemplateRequest): (r: Option<Template>)
    ensures r.Some? ==> db.Some? && db.value.fault.None? && r.value in db.value.rows
    ensures r.Some? <==> db.Some? && db.value.fault.None? && !Select(req.templateId, req.templateName).Neither? &&
                         Lookup(db.value.rows, Select(req.templateId, req.templateName)).Some?
  {
    var s := Select(req.templateId, req.templateName);
    if db.None? || s.Neither? || db.value.fault.Some? then None else Lookup(db.value.rows, s)
  }

  function FromTemplateMessage(processId: string, name: string): string
  {
    "Process '" + processId + "' created from template '" + name + "'"
  }

  const EitherTemplateIdOrName := "Either 'template_id' or 'template_name' must be provided"

  /// `create_process_from_template`, with the use-count key chosen by
  /// `asWritten`.  `createFailure` is the process manager's error, if it
  /// refuses; `incrementFails` says whether the use-count update fails,
  /// which is only logged.
  function FromTemplateWith(db: Option<Db>, req: FromTemplateRequest, createFailure: Option<string>,
                            incrementFails: bool, now: string, asWritten: bool): (r: FromTemplate)
    ensures db.None? ==> r == FromTemplate(None, [], Refused(INTERNAL_ERROR, NoDb))
    ensures db.Some? && req.templateId.None? && req.templateName.None? ==>
              r.reply == Refused(INVALID_PARAMS, EitherTemplateIdOrName)
    ensures r.created.Some? <==> Found(db, req).Some? && createFailure.None?
    ensures r.created.Some? ==> r.created.value == ProcessFrom(Found(db, req).value, req)
    ensures r.reply.Confirmed? <==> r.created.Some? && Found(db, req).value.id.Some?
    ensures r.reply.Confirmed? ==>
              var t := Found(db, req).value;
              r.reply.message == FromTemplateMessage(req.processId, t.name) &&
              r.rows == (if incrementFails then db.value.rows
                         else IncrementUseCount(db.value.rows, AddressOf(t.id.value, asWritten), now))
    ensures !r.reply.Confirmed? ==> r.rows == (if db.Some? then db.value.rows else [])
  {
    if db.None? then FromTemplate(None, [], Refused(INTERNAL_ERROR, NoDb))
    else
      var rows := db.value.rows;
      if Select(req.templateId, req.templateName).Neither? then
        FromTemplate(None, rows, Refused(INVALID_PARAMS, EitherTemplateIdOrName))
      else if db.value.fault.Some? then
        FromTemplate(None, rows, Refused(INTERNAL_ERROR, "Failed to get template: " + db.value.fault.value))
      else
        match Found(db, req)
        case None => FromTemplate(None, rows, Refused(INVALID_PARAMS, "Template not found"))
        case Some(t) =>
          if createFailure.Some? then
            FromTemplate(None, rows, Refused(INTERNAL_ERROR, "Failed to create process: " + createFailure.value))
          else
            var p := ProcessFrom(t, req);
            if t.id.None? then FromTemplate(Some(p), rows, Refused(INTERNAL_ERROR, "Template has no ID"))
            else
              var rows' := if incrementFails then rows else IncrementUseCount(rows, AddressOf(t.id.value, asWritten), now);
              FromTemplate(Some(p), rows', Confirmed(FromTemplateMessage(req.processId, t.name), None))
  }

  /// `create_process_from_template` as the source writes it.
  function FromTemplateAsWritten(db: Option<Db>, req: FromTemplateRequest, createFailure: Option<string>,
                                 incrementFails: bool, now: string): (r: FromTemplate)
    ensures r == FromTemplateWith(db, req, createFailure, incrementFails, now, true)
    ensures r.reply.Confirmed? ==> r.created.Some? && r.created.value.id == req.processId
  {
    FromTemplateWith(db, req, createFailure, incrementFails, now, true)
  }

  /// `create_process_from_template` counting the use against the
  /// template's key.
  function CreateProcessFromTemplate(db: Option<Db>, req: FromTemplateRequest, createFailure: Option<string>,
                                     incrementFails: bool, now: string): (r: FromTemplate)
    ensures r == FromTemplateWith(db, req, createFailure, incrementFails, now, false)
    ensures r.reply.Confirmed? ==> r.created.Some? && r.created.value.id == req.processId
  {
    FromTemplateWith(db, req, createFailure, incrementFails, now, false)
  }

  /// A failing use-count update changes the table but never the answer or
  /// the process created.
  lemma IncrementFailureOnlyWarns(db: Option<Db>, req: FromTemplateRequest, createFailure: Option<string>, now: string)
    ensures CreateProcessFromTemplate(db, req, createFailure, true, now).reply ==
            CreateProcessFromTemplate(db, req, createFailure, false, now).reply
    ensures CreateProcessFromTemplate(db, req, createFailure, true, now).created ==
            CreateProcessFromTemplate(db, req, createFailure, false, now).created
  {
  }

  /// As written, the use is counted against a record that does not exist:
  /// the table is unchanged, so the template's use count never moves.
  lemma FromTemplateAsWrittenCountsNothing(db: Db, req: FromTemplateRequest, now: string)
    requires Valid(db.rows) && GeneratedKeys(db.rows)
    requires FromTemplateAsWritten(Some(db), req, None, false, now).reply.Confirmed?
    ensures FromTemplateAsWritten(Some(db), req, None, false, now).rows == db.rows
  {
    var t := Found(Some(db), req).value;
    RecordTextIsNoKey(db.rows, t.id.value);
  }

  /// Corrected, the template used has its use count raised by one and is
  /// stamped with the time; no other template changes.
  lemma FromTemplateCountsUse(db: Db, req: FromTemplateRequest, now: string, other: string)
    requires Valid(db.rows)
    requires CreateProcessFromTemplate(Some(db), req, None, false, now).reply.Confirmed?
    ensures var t := Found(Some(db), req).value;
            var rows := CreateProcessFromTemplate(Some(db), req, None, false, now).rows;
            Get(rows, KeyOf(t)) == Some(Bumped(t, now)) &&
            (other != KeyOf(t) ==> Get(rows, other) == Get(db.rows, other))
  {
    var t := Found(Some(db), req).value;
    GetFindsStored(db.rows, t);
    IncrementTouchesOnlyKey(db.rows, KeyOf(t), now, other);
  }
}
