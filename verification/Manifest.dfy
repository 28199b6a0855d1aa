/** Normalizing an orchestration manifest: done once by the tool that submits it, and again by the server that gets it. */
module Manifest {
  import opened Common
  import opened Json

  const ROLES := {
    "pm", "architect", "developer", "qa", "release-engineer", "infra-engineer", "devops", "security-engineer",
    "designer", "marketing", "data-engineer" }
  const SELECTS := {"single-select", "multi-select"}
  const KINDS := {"single-select", "multi-select", "number", "text"}

  /** Trimming, and the key of a project name. */
  datatype Strings = Strings(trim: string -> string, key: string -> string)

  ghost predicate Lawful(s: Strings) {
    && (forall t :: s.trim(s.trim(t)) == s.trim(t))
    && s.trim("") == "" && s.trim("1.0") == "1.0"
    && (forall t :: s.key(s.key(t)) == s.key(t) && s.trim(s.key(t)) == s.key(t))
  }

  datatype Choice = Choice(value: string, caption: string, hint: Option<string>)

  datatype Schema = Schema(
    kind: string, title: string, description: Option<string>, required: bool, allowOther: bool,
    placeholder: Option<string>, unit: Option<string>, options: seq<Choice>,
    min: Option<real>, max: Option<real>, step: Option<real>)

  datatype CreatedTask = CreatedTask(title: string, role: Option<string>, outcome: string)
  datatype DeferredTask = DeferredTask(title: string, role: Option<string>, blockedBy: string, whenReady: string)
  datatype Opportunity = Opportunity(title: string, value: string, summary: string)

  datatype Manifest = Manifest(
    version: string, projectName: Option<string>, summary: string, roles: seq<string>, clarificationsNeeded: bool,
    questions: seq<string>, schemas: seq<Schema>, created: seq<CreatedTask>, deferred: seq<DeferredTask>,
    handoffPlan: Option<string>, notes: Option<string>, opportunities: seq<Opportunity>, complete: bool)

  // ---- values

  /** The trimmed text, or nothing. */
  function Text(s: Strings, j: Option<Json>): string {
    if j.Some? && j.value.Str? then s.trim(j.value.text) else ""
  }

  function OptionalText(s: Strings, j: Option<Json>): Option<string> {
    if Text(s, j) != "" then Some(Text(s, j)) else None
  }

  /** What counts as true. */
  function Truthy(j: Option<Json>): bool {
    j.Some? &&
    match j.value
    case Null => false
    case Bool(b) => b
    case Number(n) => n != 0.0
    case Str(t) => t != ""
    case List(_) => true
    case Obj(_) => true
  }

  function Numeric(j: Option<Json>): Option<real> {
    if j.Some? && j.value.Number? then Some(j.value.number) else None
  }

  function Items(j: Option<Json>): seq<Json> {
    if j.Some? && j.value.List? then j.value.items else []
  }

  /** Maps, and drops what has no image. */
  function Collect<T>(items: seq<Json>, f: Json -> Option<T>): (r: seq<T>)
    ensures forall x :: x in r ==> exists i :: 0 <= i < |items| && f(items[i]) == Some(x)
  {
    if items == [] then []
    else
      var last := f(items[|items| - 1]);
      Collect(items[..|items| - 1], f) + (if last.Some? then [last.value] else [])
  }

  function AsItems<T>(values: seq<T>, encode: T -> Json): Json {
    List(seq(|values|, i requires 0 <= i < |values| => encode(values[i])))
  }

  lemma {:induction false} CollectBack<T>(values: seq<T>, encode: T -> Json, f: Json -> Option<T>)
    requires forall x :: x in values ==> f(encode(x)) == Some(x)
    ensures Collect(AsItems(values, encode).items, f) == values
  {
    if values != [] {
      var n := |values| - 1;
      CollectBack(values[..n], encode, f);
      assert values[n] in values;
      CollectMore(AsItems(values[..n], encode).items, encode(values[n]), f);
      ItemsMore(values, encode, n);
    }
  }

  lemma ItemsMore<T>(values: seq<T>, encode: T -> Json, n: nat)
    requires |values| == n + 1
    ensures AsItems(values, encode).items == AsItems(values[..n], encode).items + [encode(values[n])]
    ensures values == values[..n] + [values[n]]
  {
  }

  lemma CollectMore<T>(items: seq<Json>, last: Json, f: Json -> Option<T>)
    ensures Collect(items + [last], f) == Collect(items, f) + (if f(last).Some? then [f(last).value] else [])
  {
    assert (items + [last])[..|items|] == items;
  }

  /** The fields that are present; absent ones are left out of the text. */
  function Present(keys: seq<string>, values: seq<Option<Json>>): Fields
    requires |keys| == |values|
  {
    if keys == [] then []
    else if values[0].Some? then [Field(keys[0], values[0].value)] + Present(keys[1..], values[1..])
    else Present(keys[1..], values[1..])
  }

  lemma {:induction false} GetPresent(keys: seq<string>, values: seq<Option<Json>>, i: nat)
    requires |keys| == |values| && NoRepeats(keys) && i < |keys|
    ensures Get(Present(keys, values), keys[i]) == values[i]
  {
    if i > 0 {
      assert keys[0] != keys[i];
      GetPresent(keys[1..], values[1..], i - 1);
      if values[0].Some? {
        assert Present(keys, values)[1..] == Present(keys[1..], values[1..]);
      }
    } else if values[0].None? {
      NotPresent(keys[1..], values[1..], keys[0]);
    }
  }

  lemma {:induction false} NotPresent(keys: seq<string>, values: seq<Option<Json>>, key: string)
    requires |keys| == |values| && key !in keys
    ensures Get(Present(keys, values), key) == None
  {
    if keys != [] {
      assert keys[0] != key;
      NotPresent(keys[1..], values[1..], key);
      if values[0].Some? {
        assert Present(keys, values)[1..] == Present(keys[1..], values[1..]);
      }
    }
  }

  function Opt(text: Option<string>): Option<Json> {
    if text.Some? then Some(Str(text.value)) else None
  }

  function OptNumber(number: Option<real>): Option<Json> {
    if number.Some? then Some(Number(number.value)) else None
  }

  // ---- the role list

  function RoleOf(s: Strings, j: Json): Option<string> {
    if Text(s, Some(j)) in ROLES then Some(Text(s, Some(j))) else None
  }

  /** The first occurrence of everything, in order. */
  function Firsts(roles: seq<string>): (r: seq<string>)
    ensures forall x :: x in r <==> x in roles
  {
    if roles == [] then []
    else
      var front, last := Firsts(roles[..|roles| - 1]), roles[|roles| - 1];
      assert roles == roles[..|roles| - 1] + [last];
      if last in front then front else front + [last]
  }

  /** The position at which something occurs first. */
  function At(roles: seq<string>, role: string): (i: nat)
    requires role in roles
    ensures i < |roles| && roles[i] == role && role !in roles[..i]
  {
    if roles[0] == role then 0
    else
      assert roles == [roles[0]] + roles[1..];
      var i := At(roles[1..], role);
      assert roles[..i + 1] == [roles[0]] + roles[1..][..i];
      i + 1
  }

  /** Roles in the order of their first occurrences; so none is there twice. */
  predicate InOrderOf(roles: seq<string>, r: seq<string>) {
    && (forall i :: 0 <= i < |r| ==> r[i] in roles)
    && (forall i, j :: 0 <= i < j < |r| ==> At(roles, r[i]) < At(roles, r[j]))
  }

  lemma {:induction false} FirstsInOrder(roles: seq<string>)
    ensures InOrderOf(roles, Firsts(roles))
  {
    if roles != [] {
      var front, last := roles[..|roles| - 1], roles[|roles| - 1];
      assert roles == front + [last];
      FirstsInOrder(front);
      InOrderOfMore(front, last, Firsts(front));
    }
  }

  lemma InOrderOfMore(front: seq<string>, last: string, r: seq<string>)
    requires InOrderOf(front, r)
    ensures InOrderOf(front + [last], r)
    ensures last !in front ==> InOrderOf(front + [last], r + [last])
  {
    forall i | 0 <= i < |r| ensures At(front + [last], r[i]) == At(front, r[i]) {
      AtPrefix(front, last, r[i]);
    }
    AtPrefix(front, last, last);
  }

  lemma AtPrefix(front: seq<string>, last: string, role: string)
    requires role in front + [last]
    ensures At(front + [last], role) == if role in front then At(front, role) else |front|
  {
    var all := front + [last];
    var i := if role in front then At(front, role) else |front|;
    assert all[..i] == front[..i];
    AtIs(all, role, i);
  }

  lemma {:induction false} AtIs(roles: seq<string>, role: string, i: nat)
    requires i < |roles| && roles[i] == role && role !in roles[..i]
    ensures At(roles, role) == i
  {
    if i > 0 {
      assert roles[..i] == [roles[0]] + roles[1..][..i - 1];
      AtIs(roles[1..], role, i - 1);
    }
  }

  lemma {:induction false} FirstsFixed(roles: seq<string>)
    requires NoRepeats(roles)
    ensures Firsts(roles) == roles
  {
    if roles != [] {
      var front := roles[..|roles| - 1];
      FirstsFixed(front);
      assert roles == front + [roles[|roles| - 1]];
    }
  }

  function RoleFor(s: Strings): Json -> Option<string> {
    (item: Json) => RoleOf(s, item)
  }

  function RoleList(s: Strings, j: Option<Json>): seq<string> {
    Firsts(Collect(Items(j), RoleFor(s)))
  }

  lemma OneMoreRole(s: Strings, items: seq<Json>, n: nat)
    requires n < |items|
    ensures var r, more := Firsts(Collect(items[..n], RoleFor(s))), Firsts(Collect(items[..n + 1], RoleFor(s)));
            var role := RoleOf(s, items[n]);
            more == if role.None? || role.value in r then r else r + [role.value]
  {
    assert items[..n + 1][..n] == items[..n];
    var before := Collect(items[..n], RoleFor(s));
    var role := RoleFor(s)(items[n]);
    if role.Some? {
      assert (before + [role.value])[..|before|] == before;
    } else {
      assert before + [] == before;
    }
  }

  lemma RoleOfText(s: Strings, j: Json)
    ensures RoleOf(s, j) == if j.Str? && s.trim(j.text) != "" && s.trim(j.text) in ROLES then Some(s.trim(j.text)) else None
  {
    assert "" !in ROLES;
  }

  /** `normalizeManifestRoleList`. */
  method NormalizeRoleList(s: Strings, raw: Option<Json>) returns (roles: seq<string>)
    ensures roles == RoleList(s, raw)
  {
    var items := Items(raw);
    roles := [];
    for n := 0 to |items|
      invariant roles == Firsts(Collect(items[..n], RoleFor(s)))
    {
      OneMoreRole(s, items, n);
      RoleOfText(s, items[n]);
      if !items[n].Str? {
        continue;
      }
      var role := s.trim(items[n].text);
      if role == "" || role !in ROLES || role in roles {
        continue;
      }
      roles := roles + [role];
    }
    assert items[..|items|] == items;
  }

  /** A role list has valid roles only, none twice, in the order of their first mention. */
  lemma RoleListIsClean(s: Strings, j: Option<Json>)
    ensures var given, r := Collect(Items(j), RoleFor(s)), RoleList(s, j);
            && NoRepeats(r) && InOrderOf(given, r)
            && (forall x :: x in r ==> x in ROLES)
            && (forall x :: x in r <==> x in given)
  {
    FirstsInOrder(Collect(Items(j), RoleFor(s)));
  }

  // ---- the entries of the lists

  function Record(j: Json): Fields {
    Rec(Some(j))
  }

  function ChoiceOf(s: Strings, j: Json): Option<Choice> {
    var f := Record(j);
    var value, caption := Text(s, Get(f, "value")), Text(s, Get(f, "label"));
    if value == "" || caption == "" then None else Some(Choice(value, caption, OptionalText(s, Get(f, "hint"))))
  }

  function ChoiceFor(s: Strings): Json -> Option<Choice> {
    (item: Json) => ChoiceOf(s, item)
  }

  const CHOICE := ["value", "label", "hint"]

  function OfChoice(c: Choice): Json {
    Obj(Present(CHOICE, [Some(Str(c.value)), Some(Str(c.caption)), Opt(c.hint)]))
  }

  /** The properties of a schema that are read. */
  datatype RawSchema = RawSchema(
    kind: Option<Json>, title: Option<Json>, description: Option<Json>, required: Option<Json>, allowOther: Option<Json>,
    placeholder: Option<Json>, unit: Option<Json>, options: Option<Json>, min: Option<Json>, max: Option<Json>, step: Option<Json>)

  function ReadSchema(f: Fields): RawSchema {
    RawSchema(
      Get(f, "kind"), Get(f, "title"), Get(f, "description"), Get(f, "required"), Get(f, "allowOther"), Get(f, "placeholder"),
      Get(f, "unit"), Get(f, "options"), Get(f, "min"), Get(f, "max"), Get(f, "step"))
  }

  function FromRawSchema(s: Strings, f: RawSchema): Option<Schema> {
    var kind, title := Text(s, f.kind), Text(s, f.title);
    var options := Collect(Items(f.options), ChoiceFor(s));
    var required := if f.required.None? || f.required.value.Null? then true else Truthy(f.required);
    if title == "" || kind !in KINDS || (kind in SELECTS && options == []) then None
    else Some(Schema(
      kind, title, OptionalText(s, f.description), required, Truthy(f.allowOther), OptionalText(s, f.placeholder),
      OptionalText(s, f.unit), options, Numeric(f.min), Numeric(f.max), Numeric(f.step)))
  }

  function SchemaOf(s: Strings, j: Json): Option<Schema> {
    FromRawSchema(s, ReadSchema(Record(j)))
  }

  function SchemaFor(s: Strings): Json -> Option<Schema> {
    (item: Json) => SchemaOf(s, item)
  }

  const SCHEMA := ["kind", "title", "description", "required", "allowOther", "placeholder", "unit", "options", "min", "max", "step"]

  /** The options are only there if there are any. */
  function RawOfSchema(m: Schema): RawSchema {
    RawSchema(
      Some(Str(m.kind)), Some(Str(m.title)), Opt(m.description), Some(Bool(m.required)), Some(Bool(m.allowOther)),
      Opt(m.placeholder), Opt(m.unit), if m.options == [] then None else Some(AsItems(m.options, OfChoice)),
      OptNumber(m.min), OptNumber(m.max), OptNumber(m.step))
  }

  function SchemaValues(f: RawSchema): (r: seq<Option<Json>>)
    ensures |r| == |SCHEMA|
  {
    [f.kind, f.title, f.description, f.required, f.allowOther, f.placeholder, f.unit, f.options, f.min, f.max, f.step]
  }

  function OfSchema(m: Schema): Json {
    Obj(Present(SCHEMA, SchemaValues(RawOfSchema(m))))
  }

  function RoleField(s: Strings, j: Option<Json>): Option<string> {
    if j.Some? then RoleOf(s, j.value) else None
  }

  function CreatedTaskOf(s: Strings, j: Json): Option<CreatedTask> {
    var f := Record(j);
    var title, outcome := Text(s, Get(f, "title")), Text(s, Get(f, "expectedOutcome"));
    if title == "" || outcome == "" then None else Some(CreatedTask(title, RoleField(s, Get(f, "assignedRole")), outcome))
  }

  function CreatedTaskFor(s: Strings): Json -> Option<CreatedTask> {
    (item: Json) => CreatedTaskOf(s, item)
  }

  const CREATED := ["title", "assignedRole", "expectedOutcome"]

  function OfCreatedTask(t: CreatedTask): Json {
    Obj(Present(CREATED, [Some(Str(t.title)), Opt(t.role), Some(Str(t.outcome))]))
  }

  function DeferredTaskOf(s: Strings, j: Json): Option<DeferredTask> {
    var f := Record(j);
    var title, blockedBy, whenReady := Text(s, Get(f, "title")), Text(s, Get(f, "blockedBy")), Text(s, Get(f, "whenReady"));
    if title == "" || blockedBy == "" || whenReady == "" then None
    else Some(DeferredTask(title, RoleField(s, Get(f, "assignedRole")), blockedBy, whenReady))
  }

  function DeferredTaskFor(s: Strings): Json -> Option<DeferredTask> {
    (item: Json) => DeferredTaskOf(s, item)
  }

  const DEFERRED := ["title", "assignedRole", "blockedBy", "whenReady"]

  function OfDeferredTask(t: DeferredTask): Json {
    Obj(Present(DEFERRED, [Some(Str(t.title)), Opt(t.role), Some(Str(t.blockedBy)), Some(Str(t.whenReady))]))
  }

  function OpportunityOf(s: Strings, j: Json): Option<Opportunity> {
    var f := Record(j);
    var title, value, summary := Text(s, Get(f, "title")), Text(s, Get(f, "value")), Text(s, Get(f, "summary"));
    if title == "" || value == "" || summary == "" then None else Some(Opportunity(title, value, summary))
  }

  function OpportunityFor(s: Strings): Json -> Option<Opportunity> {
    (item: Json) => OpportunityOf(s, item)
  }

  const OPPORTUNITY := ["title", "value", "summary"]

  function OfOpportunity(o: Opportunity): Json {
    Obj(Present(OPPORTUNITY, [Some(Str(o.title)), Some(Str(o.value)), Some(Str(o.summary))]))
  }

  // ---- the manifest

  function TextItem(s: Strings, j: Json): Option<string> {
    OptionalText(s, Some(j))
  }

  function TextFor(s: Strings): Json -> Option<string> {
    (item: Json) => TextItem(s, item)
  }

  function OfText(text: string): Json {
    Str(text)
  }

  function TextList(s: Strings, j: Option<Json>): seq<string> {
    Collect(Items(j), TextFor(s))
  }

  function ProjectName(s: Strings, j: Option<Json>): Option<string> {
    var name := Text(s, j);
    if name == "" then None else if s.key(name) != "" then Some(s.key(name)) else Some(name)
  }

  function Titles(schemas: seq<Schema>): seq<string> {
    seq(|schemas|, i requires 0 <= i < |schemas| => schemas[i].title)
  }

  function Questions(s: Strings, j: Option<Json>, schemas: seq<Schema>): seq<string> {
    if TextList(s, j) != [] then TextList(s, j) else Titles(schemas)
  }

  function Version(s: Strings, j: Option<Json>): string {
    if Text(s, j) != "" then Text(s, j) else "1.0"
  }

  /** The properties of a manifest that are read. */
  datatype RawManifest = RawManifest(
    version: Option<Json>, projectName: Option<Json>, summary: Option<Json>, roles: Option<Json>, needed: Option<Json>,
    questions: Option<Json>, schemas: Option<Json>, created: Option<Json>, deferred: Option<Json>,
    handoffPlan: Option<Json>, notes: Option<Json>, opportunities: Option<Json>, complete: Option<Json>)

  function ReadManifest(f: Fields): RawManifest {
    RawManifest(
      Get(f, "version"), Get(f, "projectName"), Get(f, "requirementSummary"), Get(f, "requiredRoles"),
      Get(f, "clarificationsNeeded"), Get(f, "clarificationQuestions"), Get(f, "clarificationSchemas"),
      Get(f, "createdTasks"), Get(f, "deferredTasks"), Get(f, "handoffPlan"), Get(f, "notes"),
      Get(f, "completionOpportunities"), Get(f, "requirementFullyComplete"))
  }

  function FromRawManifest(s: Strings, f: RawManifest): Option<Manifest> {
    var summary := Text(s, f.summary);
    var schemas := Collect(Items(f.schemas), SchemaFor(s));
    if summary == "" then None
    else Some(Manifest(
      Version(s, f.version), ProjectName(s, f.projectName), summary, RoleList(s, f.roles), Truthy(f.needed),
      Questions(s, f.questions, schemas), schemas,
      Collect(Items(f.created), CreatedTaskFor(s)), Collect(Items(f.deferred), DeferredTaskFor(s)),
      OptionalText(s, f.handoffPlan), OptionalText(s, f.notes),
      Collect(Items(f.opportunities), OpportunityFor(s)), Truthy(f.complete)))
  }

  /** `normalizeControllerManifest`. */
  function Normalize(s: Strings, raw: Json): Option<Manifest> {
    FromRawManifest(s, ReadManifest(Record(raw)))
  }

  const MANIFEST := [
    "version", "projectName", "requirementSummary", "requiredRoles", "clarificationsNeeded", "clarificationQuestions",
    "clarificationSchemas", "createdTasks", "deferredTasks", "handoffPlan", "notes", "completionOpportunities",
    "requirementFullyComplete"]

  function RawOf(m: Manifest): RawManifest {
    RawManifest(
      Some(Str(m.version)), Opt(m.projectName), Some(Str(m.summary)), Some(AsItems(m.roles, OfText)),
      Some(Bool(m.clarificationsNeeded)), Some(AsItems(m.questions, OfText)), Some(AsItems(m.schemas, OfSchema)),
      Some(AsItems(m.created, OfCreatedTask)), Some(AsItems(m.deferred, OfDeferredTask)), Opt(m.handoffPlan), Opt(m.notes),
      Some(AsItems(m.opportunities, OfOpportunity)), Some(Bool(m.complete)))
  }

  function ManifestValues(f: RawManifest): (r: seq<Option<Json>>)
    ensures |r| == |MANIFEST|
  {
    [f.version, f.projectName, f.summary, f.roles, f.needed, f.questions, f.schemas, f.created, f.deferred,
     f.handoffPlan, f.notes, f.opportunities, f.complete]
  }

  /** What is sent: absent fields are left out. */
  function Encode(m: Manifest): Json {
    Obj(Present(MANIFEST, ManifestValues(RawOf(m))))
  }

  // ---- normal form

  /** Trimmed, and not empty. */
  predicate Clean(s: Strings, text: string) {
    text != "" && s.trim(text) == text
  }

  predicate OptClean(s: Strings, text: Option<string>) {
    text.Some? ==> Clean(s, text.value)
  }

  predicate IsRole(s: Strings, role: string) {
    Clean(s, role) && role in ROLES
  }

  predicate OptRole(s: Strings, role: Option<string>) {
    role.Some? ==> IsRole(s, role.value)
  }

  predicate NormalChoice(s: Strings, x: Choice) {
    Clean(s, x.value) && Clean(s, x.caption) && OptClean(s, x.hint)
  }

  /** A kind of the list, a title, clean texts and options; a selection has options. */
  predicate NormalSchema(s: Strings, x: Schema) {
    && Clean(s, x.kind) && x.kind in KINDS && Clean(s, x.title)
    && OptClean(s, x.description) && OptClean(s, x.placeholder) && OptClean(s, x.unit)
    && (forall c :: c in x.options ==> NormalChoice(s, c))
    && (x.kind in SELECTS ==> x.options != [])
  }

  predicate NormalCreatedTask(s: Strings, x: CreatedTask) {
    Clean(s, x.title) && OptRole(s, x.role) && Clean(s, x.outcome)
  }

  predicate NormalDeferredTask(s: Strings, x: DeferredTask) {
    Clean(s, x.title) && OptRole(s, x.role) && Clean(s, x.blockedBy) && Clean(s, x.whenReady)
  }

  predicate NormalOpportunity(s: Strings, x: Opportunity) {
    Clean(s, x.title) && Clean(s, x.value) && Clean(s, x.summary)
  }

  /** A project name is a project key, or has no letter or digit a key could be made of. */
  predicate NormalName(s: Strings, name: Option<string>) {
    name.Some? ==> Clean(s, name.value) && (s.key(name.value) == name.value || s.key(name.value) == "")
  }

  predicate NormalTexts(s: Strings, m: Manifest) {
    && Clean(s, m.version) && NormalName(s, m.projectName) && Clean(s, m.summary)
    && OptClean(s, m.handoffPlan) && OptClean(s, m.notes)
  }

  predicate NormalRoles(s: Strings, roles: seq<string>) {
    NoRepeats(roles) && forall r :: r in roles ==> IsRole(s, r)
  }

  /** Clean questions; schemas never come without a question. */
  predicate NormalQuestions(s: Strings, m: Manifest) {
    && (forall q :: q in m.questions ==> Clean(s, q))
    && (m.questions == [] ==> m.schemas == [])
  }

  predicate NormalEntries(s: Strings, m: Manifest) {
    && (forall x :: x in m.schemas ==> NormalSchema(s, x))
    && (forall x :: x in m.created ==> NormalCreatedTask(s, x))
    && (forall x :: x in m.deferred ==> NormalDeferredTask(s, x))
    && (forall x :: x in m.opportunities ==> NormalOpportunity(s, x))
  }

  /** What a manifest looks like that needs no normalizing. */
  predicate IsNormal(s: Strings, m: Manifest) {
    NormalTexts(s, m) && NormalRoles(s, m.roles) && NormalQuestions(s, m) && NormalEntries(s, m)
  }

  // ---- what the normalizers yield is normal, and what is normal comes back

  /** Key lists without repeats: what was written under a key is read back under it. */
  lemma KeysDiffer()
    ensures NoRepeats(CHOICE) && NoRepeats(CREATED) && NoRepeats(DEFERRED) && NoRepeats(OPPORTUNITY)
  {
  }

  lemma SchemaKeysDiffer()
    ensures NoRepeats(SCHEMA)
  {
  }

  lemma ManifestKeysDiffer()
    ensures NoRepeats(MANIFEST)
  {
  }

  lemma TextShape(s: Strings, j: Option<Json>)
    requires Lawful(s)
    ensures Text(s, j) != "" ==> Clean(s, Text(s, j))
    ensures OptClean(s, OptionalText(s, j))
  {
  }

  lemma OptBack(s: Strings, text: Option<string>)
    requires OptClean(s, text)
    ensures OptionalText(s, Opt(text)) == text
  {
  }

  lemma RoleFieldShape(s: Strings, j: Option<Json>)
    requires Lawful(s)
    ensures OptRole(s, RoleField(s, j))
  {
    assert "" !in ROLES;
    TextShape(s, j);
  }

  lemma RoleFieldBack(s: Strings, role: Option<string>)
    requires OptRole(s, role)
    ensures RoleField(s, Opt(role)) == role
  {
  }

  // options
  lemma ChoiceShape(s: Strings, j: Json)
    requires Lawful(s) && ChoiceOf(s, j).Some?
    ensures NormalChoice(s, ChoiceOf(s, j).value)
  {
    TextShape(s, Get(Record(j), "value"));
    TextShape(s, Get(Record(j), "label"));
    TextShape(s, Get(Record(j), "hint"));
  }

  lemma ChoiceBack(s: Strings, x: Choice)
    requires NormalChoice(s, x)
    ensures ChoiceOf(s, OfChoice(x)) == Some(x)
  {
    var values := [Some(Str(x.value)), Some(Str(x.caption)), Opt(x.hint)];
    KeysDiffer();
    GetPresent(CHOICE, values, 0);
    GetPresent(CHOICE, values, 1);
    GetPresent(CHOICE, values, 2);
  }

  // tasks
  lemma CreatedTaskShape(s: Strings, j: Json)
    requires Lawful(s) && CreatedTaskOf(s, j).Some?
    ensures NormalCreatedTask(s, CreatedTaskOf(s, j).value)
  {
    TextShape(s, Get(Record(j), "title"));
    RoleFieldShape(s, Get(Record(j), "assignedRole"));
    TextShape(s, Get(Record(j), "expectedOutcome"));
  }

  lemma CreatedTaskBack(s: Strings, x: CreatedTask)
    requires NormalCreatedTask(s, x)
    ensures CreatedTaskOf(s, OfCreatedTask(x)) == Some(x)
  {
    RoleFieldBack(s, x.role);
    var values := [Some(Str(x.title)), Opt(x.role), Some(Str(x.outcome))];
    KeysDiffer();
    GetPresent(CREATED, values, 0);
    GetPresent(CREATED, values, 1);
    GetPresent(CREATED, values, 2);
  }

  // deferred tasks
  lemma DeferredTaskShape(s: Strings, j: Json)
    requires Lawful(s) && DeferredTaskOf(s, j).Some?
    ensures NormalDeferredTask(s, DeferredTaskOf(s, j).value)
  {
    TextShape(s, Get(Record(j), "title"));
    RoleFieldShape(s, Get(Record(j), "assignedRole"));
    TextShape(s, Get(Record(j), "blockedBy"));
    TextShape(s, Get(Record(j), "whenReady"));
  }

  lemma DeferredTaskBack(s: Strings, x: DeferredTask)
    requires NormalDeferredTask(s, x)
    ensures DeferredTaskOf(s, OfDeferredTask(x)) == Some(x)
  {
    RoleFieldBack(s, x.role);
    var values := [Some(Str(x.title)), Opt(x.role), Some(Str(x.blockedBy)), Some(Str(x.whenReady))];
    KeysDiffer();
    GetPresent(DEFERRED, values, 0);
    GetPresent(DEFERRED, values, 1);
    GetPresent(DEFERRED, values, 2);
    GetPresent(DEFERRED, values, 3);
  }

  // opportunities
  lemma OpportunityShape(s: Strings, j: Json)
    requires Lawful(s) && OpportunityOf(s, j).Some?
    ensures NormalOpportunity(s, OpportunityOf(s, j).value)
  {
    TextShape(s, Get(Record(j), "title"));
    TextShape(s, Get(Record(j), "value"));
    TextShape(s, Get(Record(j), "summary"));
  }

  lemma OpportunityBack(s: Strings, x: Opportunity)
    requires NormalOpportunity(s, x)
    ensures OpportunityOf(s, OfOpportunity(x)) == Some(x)
  {
    var values := [Some(Str(x.title)), Some(Str(x.value)), Some(Str(x.summary))];
    KeysDiffer();
    GetPresent(OPPORTUNITY, values, 0);
    GetPresent(OPPORTUNITY, values, 1);
    GetPresent(OPPORTUNITY, values, 2);
  }

  // lists of them

  lemma ChoicesShape(s: Strings, items: seq<Json>)
    requires Lawful(s)
    ensures forall x :: x in Collect(items, ChoiceFor(s)) ==> NormalChoice(s, x)
  {
    forall x | x in Collect(items, ChoiceFor(s)) ensures NormalChoice(s, x) {
      var i :| 0 <= i < |items| && ChoiceFor(s)(items[i]) == Some(x);
      ChoiceShape(s, items[i]);
    }
  }

  lemma ChoicesBack(s: Strings, xs: seq<Choice>)
    requires forall x :: x in xs ==> NormalChoice(s, x)
    ensures Collect(AsItems(xs, OfChoice).items, ChoiceFor(s)) == xs
  {
    forall x | x in xs ensures ChoiceFor(s)(OfChoice(x)) == Some(x) {
      ChoiceBack(s, x);
    }
    CollectBack(xs, OfChoice, ChoiceFor(s));
  }

  lemma CreatedTasksShape(s: Strings, items: seq<Json>)
    requires Lawful(s)
    ensures forall x :: x in Collect(items, CreatedTaskFor(s)) ==> NormalCreatedTask(s, x)
  {
    forall x | x in Collect(items, CreatedTaskFor(s)) ensures NormalCreatedTask(s, x) {
      var i :| 0 <= i < |items| && CreatedTaskFor(s)(items[i]) == Some(x);
      CreatedTaskShape(s, items[i]);
    }
  }

  lemma CreatedTasksBack(s: Strings, xs: seq<CreatedTask>)
    requires forall x :: x in xs ==> NormalCreatedTask(s, x)
    ensures Collect(AsItems(xs, OfCreatedTask).items, CreatedTaskFor(s)) == xs
  {
    forall x | x in xs ensures CreatedTaskFor(s)(OfCreatedTask(x)) == Some(x) {
      CreatedTaskBack(s, x);
    }
    CollectBack(xs, OfCreatedTask, CreatedTaskFor(s));
  }

  lemma DeferredTasksShape(s: Strings, items: seq<Json>)
    requires Lawful(s)
    ensures forall x :: x in Collect(items, DeferredTaskFor(s)) ==> NormalDeferredTask(s, x)
  {
    forall x | x in Collect(items, DeferredTaskFor(s)) ensures NormalDeferredTask(s, x) {
      var i :| 0 <= i < |items| && DeferredTaskFor(s)(items[i]) == Some(x);
      DeferredTaskShape(s, items[i]);
    }
  }

  lemma DeferredTasksBack(s: Strings, xs: seq<DeferredTask>)
    requires forall x :: x in xs ==> NormalDeferredTask(s, x)
    ensures Collect(AsItems(xs, OfDeferredTask).items, DeferredTaskFor(s)) == xs
  {
    forall x | x in xs ensures DeferredTaskFor(s)(OfDeferredTask(x)) == Some(x) {
      DeferredTaskBack(s, x);
    }
    CollectBack(xs, OfDeferredTask, DeferredTaskFor(s));
  }

  lemma OpportunitiesShape(s: Strings, items: seq<Json>)
    requires Lawful(s)
    ensures forall x :: x in Collect(items, OpportunityFor(s)) ==> NormalOpportunity(s, x)
  {
    forall x | x in Collect(items, OpportunityFor(s)) ensures NormalOpportunity(s, x) {
      var i :| 0 <= i < |items| && OpportunityFor(s)(items[i]) == Some(x);
      OpportunityShape(s, items[i]);
    }
  }

  lemma OpportunitiesBack(s: Strings, xs: seq<Opportunity>)
    requires forall x :: x in xs ==> NormalOpportunity(s, x)
    ensures Collect(AsItems(xs, OfOpportunity).items, OpportunityFor(s)) == xs
  {
    forall x | x in xs ensures OpportunityFor(s)(OfOpportunity(x)) == Some(x) {
      OpportunityBack(s, x);
    }
    CollectBack(xs, OfOpportunity, OpportunityFor(s));
  }

  /** What is written field by field is read back. */
  lemma SchemaReadBack(f: RawSchema)
    ensures ReadSchema(Present(SCHEMA, SchemaValues(f))) == f
  {
    SchemaKeysDiffer();
    forall i: nat | i < |SCHEMA| ensures Get(Present(SCHEMA, SchemaValues(f)), SCHEMA[i]) == SchemaValues(f)[i] {
      GetPresent(SCHEMA, SchemaValues(f), i);
    }
    assert SCHEMA[0] == "kind" && SCHEMA[1] == "title" && SCHEMA[2] == "description" && SCHEMA[3] == "required";
    assert SCHEMA[4] == "allowOther" && SCHEMA[5] == "placeholder" && SCHEMA[6] == "unit" && SCHEMA[7] == "options";
    assert SCHEMA[8] == "min" && SCHEMA[9] == "max" && SCHEMA[10] == "step";
  }

  lemma SchemaShape(s: Strings, j: Json)
    requires Lawful(s) && SchemaOf(s, j).Some?
    ensures NormalSchema(s, SchemaOf(s, j).value)
  {
    var f := ReadSchema(Record(j));
    TextShape(s, f.kind);
    TextShape(s, f.title);
    TextShape(s, f.description);
    TextShape(s, f.placeholder);
    TextShape(s, f.unit);
    ChoicesShape(s, Items(f.options));
  }

  lemma RawSchemaBack(s: Strings, x: Schema)
    requires NormalSchema(s, x)
    ensures FromRawSchema(s, RawOfSchema(x)) == Some(x)
  {
    OptBack(s, x.description);
    OptBack(s, x.placeholder);
    OptBack(s, x.unit);
    ChoicesBack(s, x.options);
  }

  lemma SchemaBack(s: Strings, x: Schema)
    requires NormalSchema(s, x)
    ensures SchemaOf(s, OfSchema(x)) == Some(x)
  {
    SchemaReadBack(RawOfSchema(x));
    RawSchemaBack(s, x);
  }

  lemma SchemasShape(s: Strings, items: seq<Json>)
    requires Lawful(s)
    ensures forall x :: x in Collect(items, SchemaFor(s)) ==> NormalSchema(s, x)
  {
    forall x | x in Collect(items, SchemaFor(s)) ensures NormalSchema(s, x) {
      var i :| 0 <= i < |items| && SchemaFor(s)(items[i]) == Some(x);
      SchemaShape(s, items[i]);
    }
  }

  lemma SchemasBack(s: Strings, xs: seq<Schema>)
    requires forall x :: x in xs ==> NormalSchema(s, x)
    ensures Collect(AsItems(xs, OfSchema).items, SchemaFor(s)) == xs
  {
    forall x | x in xs ensures SchemaFor(s)(OfSchema(x)) == Some(x) {
      SchemaBack(s, x);
    }
    CollectBack(xs, OfSchema, SchemaFor(s));
  }

  /** A question schema comes back from its own encoding exactly if it is in normal form. */
  lemma SchemaNormalIff(s: Strings, x: Schema)
    requires Lawful(s)
    ensures SchemaOf(s, OfSchema(x)) == Some(x) <==> NormalSchema(s, x)
  {
    if SchemaOf(s, OfSchema(x)) == Some(x) {
      SchemaShape(s, OfSchema(x));
    } else if NormalSchema(s, x) {
      SchemaBack(s, x);
    }
  }

  /** A normalized question schema normalizes to itself. */
  lemma SchemaTwice(s: Strings, j: Json)
    requires Lawful(s) && SchemaOf(s, j).Some?
    ensures SchemaOf(s, OfSchema(SchemaOf(s, j).value)) == SchemaOf(s, j)
  {
    SchemaShape(s, j);
    SchemaBack(s, SchemaOf(s, j).value);
  }

  lemma RolesShape(s: Strings, j: Option<Json>)
    requires Lawful(s)
    ensures NormalRoles(s, RoleList(s, j))
  {
    RoleListIsClean(s, j);
    forall r | r in RoleList(s, j) ensures IsRole(s, r) {
      var i :| 0 <= i < |Items(j)| && RoleFor(s)(Items(j)[i]) == Some(r);
      RoleFieldShape(s, Some(Items(j)[i]));
    }
  }

  lemma RolesBack(s: Strings, roles: seq<string>)
    requires NormalRoles(s, roles)
    ensures RoleList(s, Some(AsItems(roles, OfText))) == roles
  {
    forall r | r in roles ensures RoleFor(s)(OfText(r)) == Some(r) {
    }
    CollectBack(roles, OfText, RoleFor(s));
    FirstsFixed(roles);
  }

  lemma QuestionsShape(s: Strings, j: Option<Json>, schemas: seq<Schema>)
    requires Lawful(s) && forall x :: x in schemas ==> NormalSchema(s, x)
    ensures var r := Questions(s, j, schemas);
            (forall q :: q in r ==> Clean(s, q)) && (r == [] ==> schemas == [])
  {
    var r := Questions(s, j, schemas);
    forall q | q in r ensures Clean(s, q) {
      if TextList(s, j) != [] {
        var i :| 0 <= i < |Items(j)| && TextFor(s)(Items(j)[i]) == Some(q);
        TextShape(s, Some(Items(j)[i]));
      } else {
        var i :| 0 <= i < |schemas| && schemas[i].title == q;
        assert schemas[i] in schemas;
      }
    }
    assert |Titles(schemas)| == |schemas|;
  }

  lemma QuestionsBack(s: Strings, m: Manifest)
    requires NormalQuestions(s, m)
    ensures Questions(s, Some(AsItems(m.questions, OfText)), m.schemas) == m.questions
  {
    CollectBack(m.questions, OfText, TextFor(s));
  }

  lemma NameShape(s: Strings, j: Option<Json>)
    requires Lawful(s)
    ensures NormalName(s, ProjectName(s, j))
  {
    TextShape(s, j);
  }

  // ---- the manifest and its encoding

  /** What was written under a key is read back under it. */
  lemma ReadBackAt(f: RawManifest, i: nat, key: string)
    requires i < |MANIFEST| && MANIFEST[i] == key
    ensures Get(Present(MANIFEST, ManifestValues(f)), key) == ManifestValues(f)[i]
  {
    ManifestKeysDiffer();
    GetPresent(MANIFEST, ManifestValues(f), i);
  }

  lemma FirstFieldsReadBack(f: RawManifest)
    ensures var r := ReadManifest(Present(MANIFEST, ManifestValues(f)));
            && r.version == f.version && r.projectName == f.projectName && r.summary == f.summary && r.roles == f.roles
            && r.needed == f.needed && r.questions == f.questions
  {
    ReadBackAt(f, 0, "version");
    ReadBackAt(f, 1, "projectName");
    ReadBackAt(f, 2, "requirementSummary");
    ReadBackAt(f, 3, "requiredRoles");
    ReadBackAt(f, 4, "clarificationsNeeded");
    ReadBackAt(f, 5, "clarificationQuestions");
  }

  lemma ListFieldsReadBack(f: RawManifest)
    ensures var r := ReadManifest(Present(MANIFEST, ManifestValues(f)));
            && r.schemas == f.schemas && r.created == f.created && r.deferred == f.deferred && r.opportunities == f.opportunities
  {
    ReadBackAt(f, 6, "clarificationSchemas");
    ReadBackAt(f, 7, "createdTasks");
    ReadBackAt(f, 8, "deferredTasks");
    ReadBackAt(f, 11, "completionOpportunities");
  }

  lemma LastFieldsReadBack(f: RawManifest)
    ensures var r := ReadManifest(Present(MANIFEST, ManifestValues(f)));
            r.handoffPlan == f.handoffPlan && r.notes == f.notes && r.complete == f.complete
  {
    ReadBackAt(f, 9, "handoffPlan");
    ReadBackAt(f, 10, "notes");
    ReadBackAt(f, 12, "requirementFullyComplete");
  }

  lemma ManifestReadBack(f: RawManifest)
    ensures ReadManifest(Present(MANIFEST, ManifestValues(f))) == f
  {
    FirstFieldsReadBack(f);
    ListFieldsReadBack(f);
    LastFieldsReadBack(f);
  }

  lemma TextsShape(s: Strings, f: RawManifest)
    requires Lawful(s) && FromRawManifest(s, f).Some?
    ensures NormalTexts(s, FromRawManifest(s, f).value)
  {
    TextShape(s, f.summary);
    TextShape(s, f.version);
    NameShape(s, f.projectName);
    TextShape(s, f.handoffPlan);
    TextShape(s, f.notes);
  }

  lemma EntriesShape(s: Strings, f: RawManifest)
    requires Lawful(s) && FromRawManifest(s, f).Some?
    ensures NormalEntries(s, FromRawManifest(s, f).value)
  {
    SchemasShape(s, Items(f.schemas));
    CreatedTasksShape(s, Items(f.created));
    DeferredTasksShape(s, Items(f.deferred));
    OpportunitiesShape(s, Items(f.opportunities));
  }

  lemma RawIsNormal(s: Strings, f: RawManifest)
    requires Lawful(s) && FromRawManifest(s, f).Some?
    ensures IsNormal(s, FromRawManifest(s, f).value)
  {
    TextsShape(s, f);
    RolesShape(s, f.roles);
    EntriesShape(s, f);
    QuestionsShape(s, f.questions, FromRawManifest(s, f).value.schemas);
  }

  /** Whatever is submitted, what the normalizer yields is in normal form. */
  lemma NormalizeIsNormal(s: Strings, raw: Json)
    requires Lawful(s) && Normalize(s, raw).Some?
    ensures IsNormal(s, Normalize(s, raw).value)
  {
    RawIsNormal(s, ReadManifest(Record(raw)));
  }

  lemma TextsBack(s: Strings, m: Manifest)
    requires NormalTexts(s, m)
    ensures Version(s, Some(Str(m.version))) == m.version && ProjectName(s, Opt(m.projectName)) == m.projectName
    ensures Text(s, Some(Str(m.summary))) == m.summary
    ensures OptionalText(s, Opt(m.handoffPlan)) == m.handoffPlan && OptionalText(s, Opt(m.notes)) == m.notes
  {
    OptBack(s, m.handoffPlan);
    OptBack(s, m.notes);
  }

  lemma EntriesBack(s: Strings, m: Manifest)
    requires NormalEntries(s, m)
    ensures Collect(AsItems(m.schemas, OfSchema).items, SchemaFor(s)) == m.schemas
    ensures Collect(AsItems(m.created, OfCreatedTask).items, CreatedTaskFor(s)) == m.created
    ensures Collect(AsItems(m.deferred, OfDeferredTask).items, DeferredTaskFor(s)) == m.deferred
    ensures Collect(AsItems(m.opportunities, OfOpportunity).items, OpportunityFor(s)) == m.opportunities
  {
    SchemasBack(s, m.schemas);
    CreatedTasksBack(s, m.created);
    DeferredTasksBack(s, m.deferred);
    OpportunitiesBack(s, m.opportunities);
  }

  lemma NormalBack(s: Strings, m: Manifest)
    requires IsNormal(s, m)
    ensures FromRawManifest(s, RawOf(m)) == Some(m)
  {
    TextsBack(s, m);
    RolesBack(s, m.roles);
    EntriesBack(s, m);
    QuestionsBack(s, m);
  }

  /** A manifest comes back from its own encoding exactly if it is in normal form. */
  lemma NormalIff(s: Strings, m: Manifest)
    requires Lawful(s)
    ensures Normalize(s, Encode(m)) == Some(m) <==> IsNormal(s, m)
  {
    if Normalize(s, Encode(m)) == Some(m) {
      NormalizeIsNormal(s, Encode(m));
    } else if IsNormal(s, m) {
      ManifestReadBack(RawOf(m));
      NormalBack(s, m);
    }
  }

  /** Whatever was submitted: what the tool normalized and sent, the server normalizes to the same manifest. */
  lemma NormalizeTwice(s: Strings, raw: Json)
    requires Lawful(s) && Normalize(s, raw).Some?
    ensures Normalize(s, Encode(Normalize(s, raw).value)) == Normalize(s, raw)
  {
    NormalizeIsNormal(s, raw);
    NormalIff(s, Normalize(s, raw).value);
  }

  // ---- the answer for any submitted document, field by field

  /** The fields of a record; anything else has none. */
  function FieldsOf(j: Json): Fields {
    match j
    case Obj(fields) => fields
    case _ => []
  }

  function ListOf(j: Option<Json>): seq<Json> {
    match j
    case Some(List(items)) => items
    case _ => []
  }

  /** What counts as true, kind by kind. */
  predicate TruthIs(j: Option<Json>, b: bool) {
    match j
    case None => !b
    case Some(Null) => !b
    case Some(Bool(flag)) => b == flag
    case Some(Number(n)) => b == (n != 0.0)
    case Some(Str(text)) => b == (text != "")
    case Some(List(_)) => b
    case Some(Obj(_)) => b
  }

  predicate TextIs(s: Strings, j: Option<Json>, text: string) {
    match j
    case Some(Str(given)) => text == s.trim(given)
    case _ => text == ""
  }

  predicate OptTextIs(s: Strings, j: Option<Json>, text: Option<string>) {
    match j
    case Some(Str(given)) => text == if s.trim(given) == "" then None else Some(s.trim(given))
    case _ => text == None
  }

  predicate NumberIs(j: Option<Json>, n: Option<real>) {
    match j
    case Some(Number(given)) => n == Some(given)
    case _ => n == None
  }

  /** A given text that is not blank. */
  predicate HasText(s: Strings, j: Option<Json>) {
    match j
    case Some(Str(given)) => s.trim(given) != ""
    case _ => false
  }

  predicate NamesRole(s: Strings, j: Option<Json>, role: string) {
    match j
    case Some(Str(given)) =>
      s.trim(given) == role && role in {"pm", "architect", "developer", "qa", "release-engineer", "infra-engineer", "devops", "security-engineer", "designer", "marketing", "data-engineer"}
    case _ => false
  }

  predicate RoleIs(s: Strings, j: Option<Json>, role: Option<string>) {
    match role
    case Some(name) => NamesRole(s, j, name)
    case None => !HasText(s, j) || !NamesRole(s, j, s.trim(j.value.text))
  }

  /** The images of the items that have one, in order. */
  ghost predicate Picks<T(!new)>(items: seq<Json>, f: Json -> Option<T>, xs: seq<T>) {
    exists at: seq<nat> :: PicksAt(items, f, xs, at)
  }

  predicate PicksAt<T(==)>(items: seq<Json>, f: Json -> Option<T>, xs: seq<T>, at: seq<nat>) {
    && |at| == |xs|
    && (forall k :: 0 <= k < |at| ==> at[k] < |items| && f(items[at[k]]) == Some(xs[k]))
    && (forall k, l :: 0 <= k < l < |at| ==> at[k] < at[l])
    && (forall i :: 0 <= i < |items| && f(items[i]).Some? ==> i in at)
  }

  lemma {:induction false} CollectPicks<T(!new)>(items: seq<Json>, f: Json -> Option<T>)
    ensures Picks(items, f, Collect(items, f))
  {
    if items == [] {
      assert PicksAt(items, f, Collect(items, f), []);
    } else {
      var n := |items| - 1;
      CollectPicks(items[..n], f);
      var at :| PicksAt(items[..n], f, Collect(items[..n], f), at);
      PicksOneMore(items, f, Collect(items[..n], f), at);
    }
  }

  lemma PicksOneMore<T(!new)>(items: seq<Json>, f: Json -> Option<T>, xs: seq<T>, at: seq<nat>)
    requires items != [] && PicksAt(items[..|items| - 1], f, xs, at)
    ensures var last := f(items[|items| - 1]);
            Picks(items, f, xs + (if last.Some? then [last.value] else []))
  {
    var n := |items| - 1;
    if f(items[n]).Some? {
      assert PicksAt(items, f, xs + [f(items[n]).value], at + [n]);
    } else {
      assert PicksAt(items, f, xs + [], at);
    }
  }

  lemma ChoiceSpelled(s: Strings, j: Json)
    ensures var f, x := FieldsOf(j), ChoiceOf(s, j);
            && (x.Some? <==> HasText(s, Get(f, "value")) && HasText(s, Get(f, "label")))
            && (x.Some? ==> TextIs(s, Get(f, "value"), x.value.value) && TextIs(s, Get(f, "label"), x.value.caption)
                            && OptTextIs(s, Get(f, "hint"), x.value.hint))
  {
  }

  lemma CreatedTaskSpelled(s: Strings, j: Json)
    requires Lawful(s)
    ensures var f, x := FieldsOf(j), CreatedTaskOf(s, j);
            && (x.Some? <==> HasText(s, Get(f, "title")) && HasText(s, Get(f, "expectedOutcome")))
            && (x.Some? ==> TextIs(s, Get(f, "title"), x.value.title) && RoleIs(s, Get(f, "assignedRole"), x.value.role)
                            && TextIs(s, Get(f, "expectedOutcome"), x.value.outcome))
  {
    RoleSpelled(s, Get(FieldsOf(j), "assignedRole"));
  }

  lemma DeferredTaskSpelled(s: Strings, j: Json)
    requires Lawful(s)
    ensures var f, x := FieldsOf(j), DeferredTaskOf(s, j);
            && (x.Some? <==> HasText(s, Get(f, "title")) && HasText(s, Get(f, "blockedBy")) && HasText(s, Get(f, "whenReady")))
            && (x.Some? ==> TextIs(s, Get(f, "title"), x.value.title) && RoleIs(s, Get(f, "assignedRole"), x.value.role)
                            && TextIs(s, Get(f, "blockedBy"), x.value.blockedBy) && TextIs(s, Get(f, "whenReady"), x.value.whenReady))
  {
    RoleSpelled(s, Get(FieldsOf(j), "assignedRole"));
  }

  lemma OpportunitySpelled(s: Strings, j: Json)
    ensures var f, x := FieldsOf(j), OpportunityOf(s, j);
            && (x.Some? <==> HasText(s, Get(f, "title")) && HasText(s, Get(f, "value")) && HasText(s, Get(f, "summary")))
            && (x.Some? ==> TextIs(s, Get(f, "title"), x.value.title) && TextIs(s, Get(f, "value"), x.value.value)
                            && TextIs(s, Get(f, "summary"), x.value.summary))
  {
  }

  lemma RoleSpelled(s: Strings, j: Option<Json>)
    ensures RoleIs(s, j, RoleField(s, j))
  {
    if j.Some? {
      RoleOfText(s, j.value);
    }
  }

  lemma RawSchemaTexts(s: Strings, f: RawSchema)
    requires FromRawSchema(s, f).Some?
    ensures var x := FromRawSchema(s, f).value;
            && TextIs(s, f.kind, x.kind) && x.kind in KINDS && HasText(s, f.title) && TextIs(s, f.title, x.title)
            && OptTextIs(s, f.description, x.description) && OptTextIs(s, f.placeholder, x.placeholder) && OptTextIs(s, f.unit, x.unit)
  {
  }

  /** A question schema's texts, each under its key, and its kind, one of the four. */
  lemma SchemaTextsSpelled(s: Strings, j: Json)
    requires SchemaOf(s, j).Some?
    ensures var f, x := FieldsOf(j), SchemaOf(s, j).value;
            && TextIs(s, Get(f, "kind"), x.kind) && HasText(s, Get(f, "title")) && TextIs(s, Get(f, "title"), x.title)
            && OptTextIs(s, Get(f, "description"), x.description) && OptTextIs(s, Get(f, "placeholder"), x.placeholder)
            && OptTextIs(s, Get(f, "unit"), x.unit)
    ensures IsKind(SchemaOf(s, j).value.kind)
  {
    RawSchemaTexts(s, ReadSchema(Record(j)));
    KindIs(SchemaOf(s, j).value.kind);
  }

  predicate IsKind(kind: string) {
    kind == "single-select" || kind == "multi-select" || kind == "number" || kind == "text"
  }

  lemma KindIs(kind: string)
    ensures kind in KINDS <==> IsKind(kind)
  {
  }

  /** Its flags and numbers; `required` is true when the key is absent or null. */
  lemma SchemaFlagsSpelled(s: Strings, j: Json)
    requires SchemaOf(s, j).Some?
    ensures var f, x := FieldsOf(j), SchemaOf(s, j).value;
            && (if Get(f, "required") == None || Get(f, "required") == Some(Null) then x.required else TruthIs(Get(f, "required"), x.required))
            && TruthIs(Get(f, "allowOther"), x.allowOther)
            && NumberIs(Get(f, "min"), x.min) && NumberIs(Get(f, "max"), x.max) && NumberIs(Get(f, "step"), x.step)
  {
  }

  /** Its options: the valid ones in order. */
  lemma SchemaOptionsSpelled(s: Strings, j: Json)
    requires SchemaOf(s, j).Some?
    ensures Picks(ListOf(Get(FieldsOf(j), "options")), ChoiceFor(s), SchemaOf(s, j).value.options)
  {
    var options := Get(FieldsOf(j), "options");
    CollectPicks(ListOf(options), ChoiceFor(s));
    ItemsAreList(options);
  }

  lemma ItemsAreList(j: Option<Json>)
    ensures Items(j) == ListOf(j)
  {
  }

  lemma SchemaExistsIff(s: Strings, j: Json)
    ensures var f := FieldsOf(j);
            SchemaOf(s, j).Some? <==>
              && HasText(s, Get(f, "title"))
              && IsOneOf(s, Get(f, "kind"), KindsWithOptions(s, ListOf(Get(f, "options"))))
  {
    var f := FieldsOf(j);
    RawSchemaExistsIff(s, ReadSchema(f));
    assert Record(j) == f;
    assert HasText(s, Get(f, "title")) <==> Text(s, Get(f, "title")) != "";
    KindIsOneOf(s, Get(f, "kind"), KindsWithOptions(s, ListOf(Get(f, "options"))));
  }

  lemma RawSchemaExistsIff(s: Strings, f: RawSchema)
    ensures FromRawSchema(s, f).Some? <==> Text(s, f.title) != "" && Text(s, f.kind) in KindsWithOptions(s, ListOf(f.options))
  {
    ItemsAreList(f.options);
    CollectNonEmpty(Items(f.options), ChoiceFor(s));
    KindNeedsOptions(s, Items(f.options), Text(s, f.kind));
  }

  lemma KindNeedsOptions(s: Strings, items: seq<Json>, kind: string)
    ensures kind in KindsWithOptions(s, items) <==>
              kind in KINDS && (kind in SELECTS ==> exists i :: 0 <= i < |items| && ChoiceOf(s, items[i]).Some?)
  {
  }

  /** It is the text of one of these kinds. */
  predicate IsOneOf(s: Strings, j: Option<Json>, kinds: set<string>) {
    exists kind :: kind in kinds && TextIs(s, j, kind)
  }

  lemma KindIsOneOf(s: Strings, j: Option<Json>, kinds: set<string>)
    ensures Text(s, j) in kinds <==> IsOneOf(s, j, kinds)
  {
    if Text(s, j) in kinds {
      assert TextIs(s, j, Text(s, j));
    }
  }

  /** The kinds a schema with these options may have: a selection needs a valid option. */
  function KindsWithOptions(s: Strings, items: seq<Json>): set<string> {
    if exists i :: 0 <= i < |items| && ChoiceOf(s, items[i]).Some? then {"single-select", "multi-select", "number", "text"} else {"number", "text"}
  }

  lemma {:induction false} CollectNonEmpty<T>(items: seq<Json>, f: Json -> Option<T>)
    ensures Collect(items, f) != [] <==> exists i :: 0 <= i < |items| && f(items[i]).Some?
  {
    if items != [] {
      var n := |items| - 1;
      CollectNonEmpty(items[..n], f);
      if i :| 0 <= i < n && f(items[i]).Some? {
        assert items[..n][i] == items[i];
      }
    }
  }

  /** There is a manifest exactly if the summary is not blank. */
  lemma ManifestExistsIff(s: Strings, raw: Json)
    ensures Normalize(s, raw).Some? <==> HasText(s, Get(FieldsOf(raw), "requirementSummary"))
  {
  }

  /** Its own texts and flags, each under its key; the version is 1.0 when none is given. */
  lemma ManifestTextsSpelled(s: Strings, raw: Json)
    requires Normalize(s, raw).Some?
    ensures var f, m := FieldsOf(raw), Normalize(s, raw).value;
            && (if HasText(s, Get(f, "version")) then TextIs(s, Get(f, "version"), m.version) else m.version == "1.0")
            && TextIs(s, Get(f, "requirementSummary"), m.summary)
            && OptTextIs(s, Get(f, "handoffPlan"), m.handoffPlan) && OptTextIs(s, Get(f, "notes"), m.notes)
            && TruthIs(Get(f, "clarificationsNeeded"), m.clarificationsNeeded) && TruthIs(Get(f, "requirementFullyComplete"), m.complete)
  {
  }

  /** The project's name becomes its key, unless nothing of it would be left. */
  lemma ManifestNameSpelled(s: Strings, raw: Json)
    requires Normalize(s, raw).Some?
    ensures var f, m := FieldsOf(raw), Normalize(s, raw).value;
            match Get(f, "projectName")
            case Some(Str(given)) =>
              m.projectName == if s.trim(given) == "" then None else if s.key(s.trim(given)) == "" then Some(s.trim(given)) else Some(s.key(s.trim(given)))
            case _ => m.projectName == None
  {
  }

  /** The lists of valid entries, in order. */
  lemma RawListsSpelled(s: Strings, f: RawManifest)
    requires FromRawManifest(s, f).Some?
    ensures var m := FromRawManifest(s, f).value;
            && Picks(ListOf(f.schemas), SchemaFor(s), m.schemas) && Picks(ListOf(f.created), CreatedTaskFor(s), m.created)
            && Picks(ListOf(f.deferred), DeferredTaskFor(s), m.deferred)
            && Picks(ListOf(f.opportunities), OpportunityFor(s), m.opportunities)
  {
    CollectPicks(Items(f.schemas), SchemaFor(s));
    CollectPicks(Items(f.created), CreatedTaskFor(s));
    CollectPicks(Items(f.deferred), DeferredTaskFor(s));
    CollectPicks(Items(f.opportunities), OpportunityFor(s));
    ItemsAreList(f.schemas);
    ItemsAreList(f.created);
    ItemsAreList(f.deferred);
    ItemsAreList(f.opportunities);
  }

  lemma ManifestListsSpelled(s: Strings, raw: Json)
    requires Normalize(s, raw).Some?
    ensures var f, m := FieldsOf(raw), Normalize(s, raw).value;
            && Picks(ListOf(Get(f, "clarificationSchemas")), SchemaFor(s), m.schemas)
            && Picks(ListOf(Get(f, "createdTasks")), CreatedTaskFor(s), m.created)
            && Picks(ListOf(Get(f, "deferredTasks")), DeferredTaskFor(s), m.deferred)
            && Picks(ListOf(Get(f, "completionOpportunities")), OpportunityFor(s), m.opportunities)
  {
    RawListsSpelled(s, ReadManifest(Record(raw)));
  }

  /** Some question is not blank. */
  predicate Asks(s: Strings, given: seq<Json>) {
    exists i :: 0 <= i < |given| && HasText(s, Some(given[i]))
  }

  lemma AsksIff(s: Strings, given: seq<Json>)
    ensures Asks(s, given) <==> Collect(given, TextFor(s)) != []
  {
    CollectNonEmpty(given, TextFor(s));
    forall i | 0 <= i < |given| ensures HasText(s, Some(given[i])) <==> TextFor(s)(given[i]).Some? {
    }
  }

  /** The questions: the given ones in order, else the titles of all schemas. */
  lemma QuestionsSpelled(s: Strings, j: Option<Json>, schemas: seq<Schema>)
    ensures var questions := Questions(s, j, schemas);
            if Asks(s, ListOf(j)) then Picks(ListOf(j), TextFor(s), questions)
            else |questions| == |schemas| && forall i :: 0 <= i < |schemas| ==> questions[i] == schemas[i].title
  {
    ItemsAreList(j);
    CollectPicks(ListOf(j), TextFor(s));
    AsksIff(s, ListOf(j));
  }

  lemma ManifestQuestionsSpelled(s: Strings, raw: Json)
    requires Normalize(s, raw).Some?
    ensures var f, m := FieldsOf(raw), Normalize(s, raw).value;
            var given := ListOf(Get(f, "clarificationQuestions"));
            if Asks(s, given) then Picks(given, TextFor(s), m.questions)
            else |m.questions| == |m.schemas| && forall i :: 0 <= i < |m.schemas| ==> m.questions[i] == m.schemas[i].title
  {
    QuestionsSpelled(s, Get(FieldsOf(raw), "clarificationQuestions"), Normalize(s, raw).value.schemas);
  }

  /** The roles: exactly the valid ones that are given, each once, in the order of first mention. */
  lemma RolesSpelled(s: Strings, j: Option<Json>, role: string)
    ensures var given := ListOf(j);
            && (role in RoleList(s, j) <==> exists i :: 0 <= i < |given| && NamesRole(s, Some(given[i]), role))
            && NoRepeats(RoleList(s, j)) && InOrderOf(Collect(given, RoleFor(s)), RoleList(s, j))
  {
    var given := ListOf(j);
    ItemsAreList(j);
    RoleListIsClean(s, j);
    CollectHas(given, RoleFor(s), role);
    forall i | 0 <= i < |given| ensures NamesRole(s, Some(given[i]), role) <==> RoleFor(s)(given[i]) == Some(role) {
      NamesRoleIff(s, given[i], role);
    }
  }

  lemma NamesRoleIff(s: Strings, j: Json, role: string)
    ensures NamesRole(s, Some(j), role) <==> RoleOf(s, j) == Some(role)
  {
    RoleOfText(s, j);
  }

  lemma ManifestRolesSpelled(s: Strings, raw: Json, role: string)
    requires Normalize(s, raw).Some?
    ensures var given, roles := ListOf(Get(FieldsOf(raw), "requiredRoles")), Normalize(s, raw).value.roles;
            && (role in roles <==> exists i :: 0 <= i < |given| && NamesRole(s, Some(given[i]), role))
            && NoRepeats(roles) && InOrderOf(Collect(given, RoleFor(s)), roles)
  {
    RolesSpelled(s, Get(FieldsOf(raw), "requiredRoles"), role);
  }

  lemma {:induction false} CollectHas<T>(items: seq<Json>, f: Json -> Option<T>, x: T)
    ensures x in Collect(items, f) <==> exists i :: 0 <= i < |items| && f(items[i]) == Some(x)
  {
    if items != [] {
      var n := |items| - 1;
      CollectHas(items[..n], f, x);
      if i :| 0 <= i < n && f(items[i]) == Some(x) {
        assert items[..n][i] == items[i];
      }
    }
  }

  /** What a question or a text entry becomes. */
  lemma TextSpelled(s: Strings, j: Json)
    ensures OptTextIs(s, Some(j), TextFor(s)(j))
  {
  }
}
