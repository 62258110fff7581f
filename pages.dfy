/** The dashboard's management pages: the permission level each page reads from the session's
    role, the row menus and create buttons it gates on that level, the request body its filter
    bar sends, and the small conversions between rows, forms and request payloads. */
module Pages {
  import opened Common
  import opened Roles
  import opened Services
  import opened Programs
  import opened Bookings

  /** The six pages that gate their actions on a permission level. */
  datatype Page = BlogPage | BookingPage | ContactPage | ServicePage | ProgramPage | SuggestionPage

  /** The items a row menu can hold. */
  datatype Action = View | Edit | Approve | Disapprove | Activate | Deactivate | Delete

  /** The role entry each page reads; services and programs share the booking entry. */
  function PageCategory(p: Page): Category
  {
    match p
    case BlogPage => BlogManagement
    case BookingPage | ServicePage | ProgramPage => BookingManagement
    case ContactPage => ContactUsManagement
    case SuggestionPage => SuggestionsManagement
  }

  /** `roleAndPermission?.[entry] || 0`: the entry of the session's role, 0 without a role. */
  function PermissionLevel(rp: Option<Role>, c: Category): (level: int)
    ensures rp.None? ==> level == 0
    ensures rp.Some? ==> level == LevelOf(rp.value, c)
  {
    if rp.Some? then LevelOf(rp.value, c) else 0
  }

  /** A role the schema accepts yields a level in 0..4 on every page. */
  lemma PageLevelInRange(rp: Option<Role>, p: Page)
    requires rp.Some? ==> RoleValid(rp.value)
    ensures 0 <= PermissionLevel(rp, PageCategory(p)) <= 4
  {
    if rp.Some? {
      ValidRoleLevels(rp.value, PageCategory(p));
    }
  }

  /** The row menu, in the order the page renders it. The blog page puts its approval toggle
      before Delete, the service and program pages their activation toggle; the contact page
      shows View at every level. */
  function Menu(p: Page, level: int, rowStatus: Json): seq<Action>
  {
    var view := if p == ContactPage || level >= 1 then [View] else [];
    var edit := if level >= 2 then [Edit] else [];
    var toggle :=
      if level < 4 then []
      else if p == BlogPage then [if Truthy(rowStatus) then Disapprove else Approve]
      else if p == ServicePage || p == ProgramPage then [if Truthy(rowStatus) then Deactivate else Activate]
      else [];
    var delete := if level >= 3 then [Delete] else [];
    view + edit + toggle + delete
  }

  /** When each action is offered, stated action by action. */
  predicate Offered(p: Page, a: Action, level: int, rowStatus: Json)
  {
    match a
    case View => p == ContactPage || level >= 1
    case Edit => level >= 2
    case Delete => level >= 3
    case Approve => p == BlogPage && level >= 4 && !Truthy(rowStatus)
    case Disapprove => p == BlogPage && level >= 4 && Truthy(rowStatus)
    case Activate => (p == ServicePage || p == ProgramPage) && level >= 4 && !Truthy(rowStatus)
    case Deactivate => (p == ServicePage || p == ProgramPage) && level >= 4 && Truthy(rowStatus)
  }

  /** The menu holds exactly the offered actions, each once. */
  lemma MenuIsOffered(p: Page, level: int, rowStatus: Json)
    ensures forall a :: a in Menu(p, level, rowStatus) <==> Offered(p, a, level, rowStatus)
    ensures forall i, j :: 0 <= i < j < |Menu(p, level, rowStatus)| ==> Menu(p, level, rowStatus)[i] != Menu(p, level, rowStatus)[j]
  {
  }

  /** Raising the level never takes an action away. */
  lemma MenuMonotone(p: Page, level: int, higher: int, rowStatus: Json)
    requires level <= higher
    ensures forall a :: a in Menu(p, level, rowStatus) ==> a in Menu(p, higher, rowStatus)
  {
    MenuIsOffered(p, level, rowStatus);
    MenuIsOffered(p, higher, rowStatus);
  }

  /** The create button: shown from level 2 on every page. */
  predicate CreateShown(level: int)
  {
    level >= 2
  }

  /** Whoever sees the create button may also edit rows. */
  lemma CreateImpliesEdit(p: Page, level: int, rowStatus: Json)
    requires CreateShown(level)
    ensures Edit in Menu(p, level, rowStatus)
  {
  }

  /** A stored blog has no status field, so its row status is undefined: at level 4 the blog
      menu always offers Approve and never Disapprove. */
  lemma BlogRowsOnlyApprove(level: int)
    requires level >= 4
    ensures Approve in Menu(BlogPage, level, Undefined)
    ensures Disapprove !in Menu(BlogPage, level, Undefined)
  {
  }

  // ---------------------------------------------------------------------------------------------
  // The filter bar

  /** The filter keys of each page, in declaration order. */
  function PageFilterKeys(p: Page): seq<string>
  {
    match p
    case BlogPage => ["title", "category", "contentType", "publicationStatus", "authorName", "tags", "status"]
    case BookingPage => ["name", "email", "phone", "status", "search"]
    case ContactPage => ["name", "email", "phone", "website", "childIssue", "search"]
    case ServicePage | ProgramPage => ["name", "status"]
    case SuggestionPage => ["name", "email", "topic", "search"]
  }

  /** `Object.entries` of an object: no key twice. */
  predicate DistinctKeys(entries: seq<(string, string)>)
  {
    forall i, j :: 0 <= i < j < |entries| ==> entries[i].0 != entries[j].0
  }

  /** The filter state of page `p`: one string per filter key, in order. */
  predicate FiltersOf(p: Page, filters: seq<(string, string)>)
  {
    |filters| == |PageFilterKeys(p)| && forall i :: 0 <= i < |filters| ==> filters[i].0 == PageFilterKeys(p)[i]
  }

  /** The body the filter loop builds, entry by entry: a truthy value is copied under its key. */
  function Kept(entries: seq<(string, string)>): map<string, string>
  {
    if entries == [] then map[]
    else
      var body := Kept(entries[..|entries| - 1]);
      var last := entries[|entries| - 1];
      if last.1 != "" then body[last.0 := last.1] else body
  }

  /** The body holds exactly the keys whose value is non-empty, each with its value unchanged. */
  lemma {:induction false} KeptExactly(entries: seq<(string, string)>)
    requires DistinctKeys(entries)
    ensures forall i :: 0 <= i < |entries| ==> (entries[i].0 in Kept(entries) <==> entries[i].1 != "")
    ensures forall i :: 0 <= i < |entries| && entries[i].1 != "" ==> Kept(entries)[entries[i].0] == entries[i].1
  {
    if entries != [] {
      var init := entries[..|entries| - 1];
      var last := entries[|entries| - 1];
      assert DistinctKeys(init);
      KeptExactly(init);
      KeptKeysFromEntries(init);
      var body := Kept(init);
      assert forall i :: 0 <= i < |init| ==> init[i].0 != last.0 by {
        forall i | 0 <= i < |init| ensures init[i].0 != last.0 {
          assert init[i] == entries[i];
        }
      }
      assert Kept(entries) == if last.1 != "" then body[last.0 := last.1] else body;
      forall i | 0 <= i < |entries| - 1
        ensures (entries[i].0 in Kept(entries) <==> entries[i].1 != "")
        ensures entries[i].1 != "" ==> Kept(entries)[entries[i].0] == entries[i].1
      {
        assert entries[i] == init[i];
        assert entries[i].0 != last.0;
      }
    }
  }

  /** Every key of the body is the key of some entry. */
  lemma {:induction false} KeptKeysFromEntries(entries: seq<(string, string)>)
    ensures forall k :: k in Kept(entries) ==> exists i :: 0 <= i < |entries| && entries[i].0 == k
  {
    if entries != [] {
      var init := entries[..|entries| - 1];
      KeptKeysFromEntries(init);
      forall k | k in Kept(entries)
        ensures exists i :: 0 <= i < |entries| && entries[i].0 == k
      {
        if k in Kept(init) {
          var i :| 0 <= i < |init| && init[i].0 == k;
          assert entries[i] == init[i];
        } else {
          assert entries[|entries| - 1].0 == k;
        }
      }
    }
  }

  /** The fetch handlers' loop over the filter entries: each truthy value is copied into the
      request body under its key. */
  method BuildBody(filters: seq<(string, string)>) returns (body: map<string, string>)
    requires DistinctKeys(filters)
    ensures body == Kept(filters)
    ensures forall i :: 0 <= i < |filters| ==> (filters[i].0 in body <==> filters[i].1 != "")
    ensures forall i :: 0 <= i < |filters| && filters[i].1 != "" ==> body[filters[i].0] == filters[i].1
    ensures forall k :: k in body ==> exists i :: 0 <= i < |filters| && filters[i].0 == k
  {
    body := map[];
    var n := 0;
    while n < |filters|
      invariant 0 <= n <= |filters|
      invariant body == Kept(filters[..n])
    {
      assert filters[..n + 1][..n] == filters[..n];
      var (key, value) := filters[n];
      if value != "" {
        body := body[key := value];
      }
      n := n + 1;
    }
    assert filters[..n] == filters;
    KeptExactly(filters);
    KeptKeysFromEntries(filters);
  }

  /** Every page's filter keys are distinct, so its body only ever names that page's keys. */
  lemma PageBodyKeys(p: Page, filters: seq<(string, string)>)
    requires FiltersOf(p, filters)
    ensures DistinctKeys(filters)
    ensures forall k :: k in Kept(filters) ==> k in PageFilterKeys(p)
  {
    KeptKeysFromEntries(filters);
  }

  // ---------------------------------------------------------------------------------------------
  // The blog form's tags

  /** `tags ? tags.split(",").map((t) => t.trim()) : []`. */
  function SubmittedTags(tags: string): (r: seq<string>)
    ensures tags == "" ==> r == []
    ensures tags != "" ==> |r| == |Split(tags, ',')| && forall i :: 0 <= i < |r| ==> r[i] == Trim(Split(tags, ',')[i])
  {
    if tags == "" then [] else
      var parts := Split(tags, ',');
      seq(|parts|, i requires 0 <= i < |parts| => Trim(parts[i]))
  }

  /** The pieces `join(", ")` glues together: the first tag, then each later one behind a space. */
  function Spaced(tags: seq<string>): (r: seq<string>)
    requires tags != []
    ensures |r| == |tags| && r[0] == tags[0]
    ensures forall i :: 0 < i < |tags| ==> r[i] == " " + tags[i]
  {
    [tags[0]] + seq(|tags| - 1, i requires 0 <= i < |tags| - 1 => " " + tags[i + 1])
  }

  /** The edit prefill `row.tags?.join(", ")`. */
  function PrefilledTags(tags: seq<string>): (s: string)
    ensures tags == [] ==> s == ""
  {
    if tags == [] then "" else Join(Spaced(tags), ',')
  }

  /** A leading space is trimmed away. */
  lemma {:induction false} TrimLeadingSpace(t: string)
    ensures Trim(" " + t) == Trim(t)
  {
    assert IsSpace(' ');
    assert (" " + t)[1..] == t;
    assert TrimStart(" " + t) == TrimStart(t);
  }

  /** The glued pieces hold no comma when the tags hold none. */
  lemma SpacedCommaFree(tags: seq<string>)
    requires tags != [] && forall i :: 0 <= i < |tags| ==> ',' !in tags[i]
    ensures forall i :: 0 <= i < |Spaced(tags)| ==> ',' !in Spaced(tags)[i]
  {
    var parts := Spaced(tags);
    forall i | 0 <= i < |parts|
      ensures ',' !in parts[i]
    {
      if i > 0 {
        assert parts[i] == [' '] + tags[i];
      }
    }
  }

  /** The prefill is empty only for no tags or a single empty one. */
  lemma PrefilledNonEmpty(tags: seq<string>)
    requires tags != [] && tags != [""]
    ensures PrefilledTags(tags) != ""
  {
    var parts := Spaced(tags);
    if |tags| > 1 {
      assert PrefilledTags(tags) == parts[0] + [','] + Join(parts[1..], ',');
    }
  }

  /** Opening a blog for editing and submitting the tags field unchanged sends back the stored
      tags, provided each is already trimmed, holds no comma, and the list is not a single
      empty tag (which joins to "" and comes back as no tags). */
  lemma {:induction false} TagsRoundTrip(tags: seq<string>)
    requires forall i :: 0 <= i < |tags| ==> Trim(tags[i]) == tags[i] && ',' !in tags[i]
    requires tags != [""]
    ensures SubmittedTags(PrefilledTags(tags)) == tags
  {
    if tags != [] {
      var parts := Spaced(tags);
      SpacedCommaFree(tags);
      SplitJoin(parts, ',');
      PrefilledNonEmpty(tags);
      var r := SubmittedTags(PrefilledTags(tags));
      assert |r| == |tags|;
      forall i | 0 <= i < |tags|
        ensures r[i] == tags[i]
      {
        assert r[i] == Trim(parts[i]);
        if i > 0 {
          TrimLeadingSpace(tags[i]);
        }
      }
    }
  }

  // ---------------------------------------------------------------------------------------------
  // Contacts

  /** The website column: 0 is DeepConnection, any other value Kiddicove. */
  function WebsiteLabel(website: int): (text: string)
    ensures text == "DeepConnection" <==> website == 0
    ensures text == "Kiddicove" <==> website != 0
  {
    if website == 0 then "DeepConnection" else "Kiddicove"
  }

  // ---------------------------------------------------------------------------------------------
  // Services and programs

  /** The status select: the option value "true" selects true, anything else false. */
  function StatusChoice(value: string): (b: bool)
    ensures b <==> value == "true"
  {
    value == "true"
  }

  /** The select renders a boolean as its option value; choosing that option gives it back. */
  lemma StatusSelectRoundTrip(b: bool)
    ensures StatusChoice(if b then "true" else "false") == b
  {
  }

  /** A new service or program form starts active. */
  const NewFormStatus: bool := true

  /** The payload the status toggle sends: `{ status: !row.status }`. */
  function TogglePayload(status: bool): (payload: ServiceInput)
    ensures payload.name.None? && payload.status == Bool(!status)
  {
    ServiceInput(None, Bool(!status))
  }

  /** The service toggle end to end: the update handler flips the status and keeps the name. */
  method ToggleService(services: ServiceTable, id: Id) returns (reply: Reply<Service>)
    requires services.Valid() && id in services.rows
    modifies services
    ensures services.Valid()
    ensures reply.Done?
    ensures reply.value == Service(old(services.rows)[id].name, !old(services.rows)[id].status)
    ensures services.rows == old(services.rows)[id := reply.value]
  {
    var row := services.rows[id];
    reply := services.Update(id, TogglePayload(row.status));
  }

  /** The program toggle end to end, through the program update handler's status rule. */
  method ToggleProgram(programs: ProgramTable, id: Id) returns (reply: Reply<Program>)
    requires programs.Valid() && id in programs.rows
    modifies programs
    ensures programs.Valid()
    ensures reply.Done?
    ensures reply.value == Program(old(programs.rows)[id].name, !old(programs.rows)[id].status)
    ensures programs.rows == old(programs.rows)[id := reply.value]
  {
    var row := programs.rows[id];
    reply := programs.Update(id, ProgramInput(None, Bool(!row.status)));
  }

  // ---------------------------------------------------------------------------------------------
  // Bookings

  /** The booking form; a reference is `None` where the form holds "". */
  datatype BookingForm = BookingForm(
    name: string,
    email: string,
    phone: string,
    serviceType: Option<Id>,
    programType: Option<Id>,
    message: string,
    status: string)

  /** The edit prefill: `row.serviceType?._id || ""`, and the same for the program. */
  function BookingPrefill(row: BookingView): (f: BookingForm)
    ensures f.serviceType.Some? <==> row.service.Some?
    ensures f.programType.Some? <==> row.program.Some?
    ensures f.serviceType.Some? ==> f.serviceType.value == row.booking.serviceType
    ensures f.programType.Some? ==> f.programType.value == row.booking.programType
    ensures f.name == row.booking.name && f.email == row.booking.email && f.phone == row.booking.phone
    ensures f.message == row.booking.message && f.status == row.booking.status
  {
    BookingForm(
      row.booking.name, row.booking.email, row.booking.phone,
      if row.service.Some? then Some(row.booking.serviceType) else None,
      if row.program.Some? then Some(row.booking.programType) else None,
      row.booking.message, row.booking.status)
  }

  /** Prefilling from the get handler's view keeps a reference exactly when it still resolves. */
  method PrefillFetched(bookings: BookingTable, id: Id, services: ServiceTable, programs: ProgramTable)
    returns (form: Option<BookingForm>)
    ensures form.Some? <==> id in bookings.rows
    ensures form.Some? ==>
            && (form.value.serviceType.Some? <==> bookings.rows[id].serviceType in services.rows)
            && (form.value.programType.Some? <==> bookings.rows[id].programType in programs.rows)
            && (form.value.serviceType.Some? ==> form.value.serviceType.value == bookings.rows[id].serviceType)
            && (form.value.programType.Some? ==> form.value.programType.value == bookings.rows[id].programType)
  {
    var reply := bookings.Get(id, services, programs);
    if reply.Fail? {
      return None;
    }
    form := Some(BookingPrefill(reply.value));
  }

  // ---------------------------------------------------------------------------------------------
  // The role page

  /** `permissionLabels[level] || "None"`. */
  function PermissionLabel(level: int): (text: string)
    ensures text == "None" <==> !(1 <= level <= 4)
  {
    if level == 1 then "View"
    else if level == 2 then "Edit"
    else if level == 3 then "Delete"
    else if level == 4 then "All"
    else "None"
  }

  /** The level a label names; with `PermissionLabel` it is a round trip on the enum. */
  function LabelLevel(text: string): int
  {
    if text == "View" then 1
    else if text == "Edit" then 2
    else if text == "Delete" then 3
    else if text == "All" then 4
    else 0
  }

  lemma LabelRoundTrip(level: int)
    requires IsLevel(level)
    ensures LabelLevel(PermissionLabel(level)) == level
  {
  }

  /** The role form: a name and the four levels the page edits. */
  datatype RoleForm = RoleForm(role: string, dashboard: int, bookingManagement: int, blogManagement: int, contactUsManagement: int)

  /** The values the level selects offer. */
  const LevelOptions: set<int> := {0, 1, 2, 3, 4}

  /** The create button's blank form. */
  const BlankRoleForm: RoleForm := RoleForm("", 0, 0, 0, 0)

  /** The edit prefill: the name and exactly the four editable levels. */
  function RolePrefill(r: Role): (f: RoleForm)
    ensures f.role == r.name
    ensures f.dashboard == LevelOf(r, Dashboard) && f.bookingManagement == LevelOf(r, BookingManagement)
    ensures f.blogManagement == LevelOf(r, BlogManagement) && f.contactUsManagement == LevelOf(r, ContactUsManagement)
  {
    RoleForm(r.name, r.dashboard, r.bookingManagement, r.blogManagement, r.contactUsManagement)
  }

  /** The body the form posts. */
  function Submitted(f: RoleForm): RoleInput
  {
    RoleInput(Some(f.role), Some(f.dashboard), Some(f.bookingManagement), Some(f.blogManagement), Some(f.contactUsManagement))
  }

  /** Levels chosen from the selects never draw the level error. */
  lemma SelectedLevelsAccepted(f: RoleForm)
    requires f.dashboard in LevelOptions && f.bookingManagement in LevelOptions
    requires f.blogManagement in LevelOptions && f.contactUsManagement in LevelOptions
    ensures FirstInvalid(Submitted(f)).None?
  {
  }

  /** Submitting an unchanged edit prefill is an identity update of a stored role whose name is
      already trimmed. */
  lemma PrefillResubmitIsIdentity(r: Role)
    requires RoleValid(r) && Trim(r.name) == r.name
    ensures FirstInvalid(Submitted(RolePrefill(r))).None?
    ensures Patched(r, Submitted(RolePrefill(r))) == r
  {
  }
}
