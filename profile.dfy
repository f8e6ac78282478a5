/** The profile page: the signed-in identity with its fallbacks, and the
    company profile's sections, or an upload prompt when there is none. */
module Profile {
  import opened JsonValue
  import KeyLabel

  /** The identity provider's user record; each field may be null. */
  datatype ProviderUser = ProviderUser(displayName: Option<string>, email: Option<string>, photoUrl: Option<string>)

  predicate Filled(s: Option<string>) {
    s.Some? && s.value != ""
  }

  // ---- identity card --------------------------------------------------------

  /** `user?.displayName || backendUser?.name || "No name provided"` */
  function DisplayName(user: Option<ProviderUser>, backendUser: Option<Json>): (r: Json)
    ensures user.Some? && Filled(user.value.displayName) ==> r == Str(user.value.displayName.value)
    ensures !(user.Some? && Filled(user.value.displayName)) && IsTruthy(Member(backendUser, "name")) ==>
              r == Member(backendUser, "name").value
    ensures !(user.Some? && Filled(user.value.displayName)) && !IsTruthy(Member(backendUser, "name")) ==>
              r == Str("No name provided")
  {
    if user.Some? && Filled(user.value.displayName) then Str(user.value.displayName.value)
    else OrElse(Member(backendUser, "name"), Str("No name provided"))
  }

  /** `user?.email || backendUser?.email || "No email"` */
  function Email(user: Option<ProviderUser>, backendUser: Option<Json>): (r: Json)
    ensures user.Some? && Filled(user.value.email) ==> r == Str(user.value.email.value)
    ensures !(user.Some? && Filled(user.value.email)) && IsTruthy(Member(backendUser, "email")) ==>
              r == Member(backendUser, "email").value
    ensures !(user.Some? && Filled(user.value.email)) && !IsTruthy(Member(backendUser, "email")) ==>
              r == Str("No email")
  {
    if user.Some? && Filled(user.value.email) then Str(user.value.email.value)
    else OrElse(Member(backendUser, "email"), Str("No email"))
  }

  datatype Avatar = Photo(url: string) | Initial(letter: string)

  /** The photo when there is one, else the first character of the display
      name, or "U". */
  function AvatarOf(user: Option<ProviderUser>): (r: Avatar)
    ensures r.Initial? ==> |r.letter| == 1
    ensures user.Some? && Filled(user.value.photoUrl) <==> r.Photo?
    ensures r.Initial? && user.Some? && Filled(user.value.displayName) ==> r.letter == [user.value.displayName.value[0]]
    ensures r.Initial? && !(user.Some? && Filled(user.value.displayName)) ==> r.letter == "U"
  {
    if user.Some? && Filled(user.value.photoUrl) then Photo(user.value.photoUrl.value)
    else
      var name := if user.Some? && Filled(user.value.displayName) then user.value.displayName.value else "U";
      Initial([name[0]])
  }

  /** `backendUser?.googleId || backendUser?._id || "n/a"` */
  function ProviderId(backendUser: Option<Json>): (r: Json)
    ensures IsTruthy(Member(backendUser, "googleId")) ==> r == Member(backendUser, "googleId").value
    ensures !IsTruthy(Member(backendUser, "googleId")) && IsTruthy(Member(backendUser, "_id")) ==>
              r == Member(backendUser, "_id").value
    ensures !IsTruthy(Member(backendUser, "googleId")) && !IsTruthy(Member(backendUser, "_id")) ==> r == Str("n/a")
  {
    OrElse(Or(Member(backendUser, "googleId"), Member(backendUser, "_id")), Str("n/a"))
  }

  // ---- company profile sections -------------------------------------------------

  /** How many of the fields have a truthy value. */
  function TruthyCount(fields: seq<Field>): (n: nat)
    ensures n <= |fields|
    decreases |fields|
  {
    if fields == [] then 0 else (if Truthy(fields[0].value) then 1 else 0) + TruthyCount(fields[1..])
  }

  /** The formatted keys of the fields with a truthy value, in order
      (`Object.entries(o).filter(([, v]) => Boolean(v)).map(([k]) => label(k))`):
      exactly one chip per truthy field. */
  function TruthyKeyLabels(fields: seq<Field>): (r: seq<Json>)
    ensures |r| == TruthyCount(fields)
    ensures forall i :: 0 <= i < |fields| && Truthy(fields[i].value) ==> Str(KeyLabel.FormatKey(fields[i].key)) in r
    ensures forall x :: x in r ==> exists i :: 0 <= i < |fields| && Truthy(fields[i].value) && x == Str(KeyLabel.FormatKey(fields[i].key))
    decreases |fields|
  {
    if fields == [] then []
    else
      var rest := TruthyKeyLabels(fields[1..]);
      assert forall i :: 1 <= i < |fields| ==> fields[i] == fields[1..][i - 1];
      if Truthy(fields[0].value) then [Str(KeyLabel.FormatKey(fields[0].key))] + rest else rest
  }

  /** The services chips as written: any object-typed value, an array
      included, is listed by its truthy entries' keys; another truthy value
      is mapped as an array, which throws. */
  function ServicesAsWritten(services: Option<Json>): (r: Outcome<seq<Json>>)
    ensures !IsTruthy(services) ==> r == Shown([])
    ensures r.Crash? <==> IsTruthy(services) && IsPrimitive(services.value)
    ensures IsTruthy(services) && services.value.Obj? ==> r == Shown(TruthyKeyLabels(services.value.fields))
    ensures IsTruthy(services) && services.value.Arr? ==>
      (r.Shown? &&
       forall x :: x in r.value ==>
         exists i :: 0 <= i < |services.value.items| && Truthy(services.value.items[i]) && x == Str(KeyLabel.FormatKey(NatToString(i))))
  {
    if !IsTruthy(services) then Shown([])
    else if IsObjectType(services.value) then Shown(TruthyKeyLabels(OwnEntries(services.value)))
    else Crash
  }

  /** The services chips as intended: an object lists its truthy entries'
      keys, an array lists its items. */
  function Services(services: Option<Json>): (r: Outcome<seq<Json>>)
    ensures !IsTruthy(services) ==> r == Shown([])
    ensures IsTruthy(services) && services.value.Arr? ==> r == Shown(services.value.items)
    ensures IsTruthy(services) && services.value.Obj? ==> r == Shown(TruthyKeyLabels(services.value.fields))
    ensures r.Crash? <==> IsTruthy(services) && IsPrimitive(services.value)
  {
    if !IsTruthy(services) then Shown([])
    else if services.value.Arr? then Shown(services.value.items)
    else if services.value.Obj? then Shown(TruthyKeyLabels(services.value.fields))
    else Crash
  }

  datatype TechGroup = TechGroup(heading: string, chips: seq<Json>)

  function TechGroupOf(f: Field): Outcome<TechGroup> {
    match ListOr(Some(f.value))
    case Crash => Crash
    case Shown(items) => Shown(TechGroup(KeyLabel.FormatKey(f.key), items))
  }

  /** `tech_stack && Object.entries(tech_stack).map(...)`: one group per
      entry, headed by the formatted key, with the entry's items as chips. */
  function TechStack(techStack: Option<Json>): (r: Outcome<seq<TechGroup>>)
    ensures !IsTruthy(techStack) ==> r == Shown([])
    ensures IsTruthy(techStack) ==>
      (r.Shown? <==> forall i :: 0 <= i < |OwnEntries(techStack.value)| ==> ListOr(Some(OwnEntries(techStack.value)[i].value)).Shown?)
    ensures IsTruthy(techStack) && r.Shown? ==>
      |r.value| == |OwnEntries(techStack.value)| &&
      forall i :: 0 <= i < |r.value| ==>
        r.value[i] == TechGroup(KeyLabel.FormatKey(OwnEntries(techStack.value)[i].key), ListOr(Some(OwnEntries(techStack.value)[i].value)).value)
  {
    if !IsTruthy(techStack) then Shown([])
    else
      var entries := OwnEntries(techStack.value);
      var groups := seq(|entries|, i requires 0 <= i < |entries| => TechGroupOf(entries[i]));
      assert forall i :: 0 <= i < |entries| ==> (groups[i].Shown? <==> ListOr(Some(entries[i].value)).Shown?);
      Collect(groups)
  }

  const TopRolesShown := 6

  datatype RoleRow = RoleRow(role: string, currency: Json, cost: Json)

  /** The first six entries of `monthly_cost_per_role`, with the currency or
      nothing before each cost. */
  function TopRoles(costs: Json, currency: Option<Json>): (r: seq<RoleRow>)
    ensures |r| == if |OwnEntries(costs)| < TopRolesShown then |OwnEntries(costs)| else TopRolesShown
    ensures forall i :: 0 <= i < |r| ==>
      r[i] == RoleRow(KeyLabel.FormatKey(OwnEntries(costs)[i].key), Or(currency, Some(Str(""))).value, OwnEntries(costs)[i].value)
  {
    var entries := OwnEntries(costs);
    var shown := if |entries| < TopRolesShown then entries else entries[..TopRolesShown];
    seq(|shown|, i requires 0 <= i < |shown| =>
      RoleRow(KeyLabel.FormatKey(shown[i].key), Or(currency, Some(Str(""))).value, shown[i].value))
  }

  datatype CaseStudy = CaseStudy(industry: Option<Json>, solution: Option<Json>)

  function CaseStudyOf(c: Json): Outcome<CaseStudy> {
    if c.Null? then Crash else Shown(CaseStudy(Get(c, "industry"), Get(c, "solution")))
  }

  /** One block per case study, in order. */
  function CaseStudies(v: Option<Json>): (r: Outcome<seq<CaseStudy>>)
    ensures ListOr(v).Crash? ==> r.Crash?
    ensures ListOr(v).Shown? ==> (r.Shown? <==> forall i :: 0 <= i < |ListOr(v).value| ==> ListOr(v).value[i] != Null)
    ensures r.Shown? ==>
      (|r.value| == |ListOr(v).value| &&
       forall i :: 0 <= i < |r.value| ==>
         r.value[i] == CaseStudy(Get(ListOr(v).value[i], "industry"), Get(ListOr(v).value[i], "solution")))
  {
    match ListOr(v)
    case Crash => Crash
    case Shown(xs) =>
      var rows := seq(|xs|, i requires 0 <= i < |xs| => CaseStudyOf(xs[i]));
      assert forall i :: 0 <= i < |xs| ==> rows[i] == CaseStudyOf(xs[i]);
      Collect(rows)
  }

  datatype Company = Company(
    name: Option<Json>, contactEmail: Json, size: Option<Json>,
    services: seq<Json>, techStack: seq<TechGroup>,
    currency: Json, topRoles: Option<seq<RoleRow>>,
    securityPractices: seq<Json>, caseStudies: seq<CaseStudy>)

  datatype CompanySection = UploadPrompt | Details(company: Company)

  /** `backendUser?.companyProfile || null` */
  function CompanyProfileOf(backendUser: Option<Json>): (r: Json)
    ensures Truthy(r) <==> IsTruthy(Member(backendUser, "companyProfile"))
    ensures Truthy(r) ==> r == Member(backendUser, "companyProfile").value
    ensures !Truthy(r) ==> r == Null
  {
    if IsTruthy(Member(backendUser, "companyProfile")) then Member(backendUser, "companyProfile").value else Null
  }

  /** The company profile's sections; the services chips are the
      corrected reading (see `ServicesIntended`). */
  function CompanyOf(profile: Json): (r: Outcome<Company>)
    ensures r.Shown? <==>
      Services(Get(profile, "services")).Shown? && TechStack(Get(profile, "tech_stack")).Shown? &&
      ListOr(Member(Get(profile, "security_and_compliance"), "security_practices")).Shown? &&
      CaseStudies(Member(Get(profile, "experience_and_case_studies"), "case_studies")).Shown?
    ensures r.Shown? ==> r.value.services == Services(Get(profile, "services")).value
    ensures r.Shown? ==> r.value.techStack == TechStack(Get(profile, "tech_stack")).value
    ensures r.Shown? ==> Truthy(r.value.contactEmail) && Truthy(r.value.currency)
    ensures r.Shown? ==> (r.value.size.Some? <==> IsTruthy(Member(Get(profile, "company_identity"), "company_size")))
    ensures r.Shown? ==>
      (r.value.topRoles.Some? <==> IsTruthy(Member(Get(profile, "pricing_rules"), "monthly_cost_per_role")))
  {
    var identity := Get(profile, "company_identity");
    var pricing := Get(profile, "pricing_rules");
    var services := Services(Get(profile, "services"));
    var tech := TechStack(Get(profile, "tech_stack"));
    var security := ListOr(Member(Get(profile, "security_and_compliance"), "security_practices"));
    var studies := CaseStudies(Member(Get(profile, "experience_and_case_studies"), "case_studies"));
    if services.Crash? || tech.Crash? || security.Crash? || studies.Crash? then Crash
    else
      Shown(Company(
        Or(Member(identity, "name"), Get(profile, "companyName")),
        OrElse(Member(Member(identity, "contact"), "email"), Str("-")),
        if IsTruthy(Member(identity, "company_size")) then Member(identity, "company_size") else None,
        services.value, tech.value,
        OrElse(Member(pricing, "currency"), Str("N/A")),
        if IsTruthy(Member(pricing, "monthly_cost_per_role"))
        then Some(TopRoles(Member(pricing, "monthly_cost_per_role").value, Member(pricing, "currency")))
        else None,
        security.value, studies.value))
  }

  datatype Page = Page(name: Json, email: Json, avatar: Avatar, providerId: Json, company: CompanySection)

  /** The whole page: the identity card always, and the company section,
      which crashes the page when one of its lists does. */
  function View(user: Option<ProviderUser>, backendUser: Option<Json>): (r: Outcome<Page>)
    ensures r.Crash? <==> Truthy(CompanyProfileOf(backendUser)) && CompanyOf(CompanyProfileOf(backendUser)).Crash?
    ensures r.Shown? ==>
      r.value.name == DisplayName(user, backendUser) && r.value.email == Email(user, backendUser) &&
      r.value.avatar == AvatarOf(user) && r.value.providerId == ProviderId(backendUser)
    ensures r.Shown? ==> (r.value.company.UploadPrompt? <==> !Truthy(CompanyProfileOf(backendUser)))
    ensures r.Shown? && r.value.company.Details? ==>
      Shown(r.value.company.company) == CompanyOf(CompanyProfileOf(backendUser))
  {
    var profile := CompanyProfileOf(backendUser);
    var section := if !Truthy(profile) then Shown(UploadPrompt)
                   else match CompanyOf(profile) case Crash => Crash case Shown(c) => Shown(Details(c));
    match section
    case Crash => Crash
    case Shown(s) => Shown(Page(DisplayName(user, backendUser), Email(user, backendUser), AvatarOf(user),
                                ProviderId(backendUser), s))
  }

  // ---- properties ------------------------------------------------------------

  /** Without a truthy company profile the page shows the upload prompt and
      no section. */
  lemma PromptWithoutProfile(user: Option<ProviderUser>, backendUser: Option<Json>)
    ensures !IsTruthy(Member(backendUser, "companyProfile")) <==> View(user, backendUser).Shown? && View(user, backendUser).value.company == UploadPrompt
  {
    if IsTruthy(Member(backendUser, "companyProfile")) {
      assert Truthy(CompanyProfileOf(backendUser));
    }
  }

  /** An object of services yields a chip for each truthy entry and none for
      a falsy one; when every entry is truthy the chips are the formatted
      keys in order. */
  lemma {:induction false} ServicesAllTruthy(fields: seq<Field>)
    requires forall i :: 0 <= i < |fields| ==> Truthy(fields[i].value)
    ensures |TruthyKeyLabels(fields)| == |fields|
    ensures forall i :: 0 <= i < |fields| ==> TruthyKeyLabels(fields)[i] == Str(KeyLabel.FormatKey(fields[i].key))
    decreases |fields|
  {
    if fields != [] {
      ServicesAllTruthy(fields[1..]);
    }
  }

  /** A chip never shows for an entry whose value is falsy: removing such
      an entry leaves the chips unchanged. */
  lemma {:induction false} FalsyServiceHidden(before: seq<Field>, f: Field, after: seq<Field>)
    requires !Truthy(f.value)
    ensures TruthyKeyLabels(before + [f] + after) == TruthyKeyLabels(before + after)
    decreases |before|
  {
    if before == [] {
      assert before + [f] + after == [f] + after;
      assert ([f] + after)[1..] == after;
      assert before + after == after;
    } else {
      FalsyServiceHidden(before[1..], f, after);
      assert (before + [f] + after)[1..] == before[1..] + [f] + after;
      assert (before + after)[1..] == before[1..] + after;
    }
  }

  /** The top roles are the first six entries, or all of them when fewer,
      in order. */
  lemma TopSixRoles(costs: Json, currency: Option<Json>)
    requires |OwnEntries(costs)| >= TopRolesShown
    ensures |TopRoles(costs, currency)| == 6
    ensures forall i :: 0 <= i < 6 ==> TopRoles(costs, currency)[i].cost == OwnEntries(costs)[i].value
  {
  }

  /** The avatar letter: "U" for a user without a display name. */
  lemma AvatarDefault()
    ensures AvatarOf(Some(ProviderUser(None, None, None))) == Initial("U")
    ensures AvatarOf(None) == Initial("U")
  {
  }

  // ---- the array-of-services finding --------------------------------------------

  const ServiceNames := Arr([Str("Web"), Str("Mobile")])

  /** As written, a services array takes the object branch and shows the
      array's indices. */
  lemma ServicesArrayShowsIndices()
    ensures ServicesAsWritten(Some(ServiceNames)) == Shown([Str("0"), Str("1")])
  {
    IndexChips();
    assert OwnEntries(ServiceNames) == [Field("0", Str("Web")), Field("1", Str("Mobile"))];
  }

  /** The chips of the entries `"0": "Web"` and `"1": "Mobile"`. */
  lemma IndexChips()
    ensures OwnEntries(ServiceNames) == [Field("0", Str("Web")), Field("1", Str("Mobile"))]
    ensures TruthyKeyLabels([Field("0", Str("Web")), Field("1", Str("Mobile"))]) == [Str("0"), Str("1")]
  {
    var items := ServiceNames.items;
    assert NatToString(0) == "0" && NatToString(1) == "1";
    assert IndexedFields(items[1..], 1) == [Field("1", Str("Mobile"))];
    var e := IndexedFields(items, 0);
    assert e == [Field("0", Str("Web")), Field("1", Str("Mobile"))];
    DigitLabel("0");
    DigitLabel("1");
    assert TruthyKeyLabels(e[1..][1..]) == [];
    assert TruthyKeyLabels(e[1..]) == [Str("1")];
  }

  /** The page carries the corrected chips: a profile whose services are
      the array `["Web", "Mobile"]` shows those names, where the page as
      written shows the chips "0" and "1". */
  lemma ViewServicesArray(user: Option<ProviderUser>, backendUser: Option<Json>)
    requires Truthy(CompanyProfileOf(backendUser))
    requires Get(CompanyProfileOf(backendUser), "services") == Some(ServiceNames)
    requires View(user, backendUser).Shown?
    ensures View(user, backendUser).value.company.company.services == [Str("Web"), Str("Mobile")]
    ensures ServicesAsWritten(Get(CompanyProfileOf(backendUser), "services")) == Shown([Str("0"), Str("1")])
  {
    ServicesArrayShowsIndices();
  }

  /** A one-digit key is its own label. */
  lemma DigitLabel(k: string)
    requires |k| == 1 && '0' <= k[0] <= '9'
    ensures KeyLabel.FormatKey(k) == k
  {
    assert KeyLabel.Despace(k) == k;
    assert KeyLabel.Capitalize(k[1..], true) == [];
  }

  /** As intended, each service name of an array is a chip, and for an
      object both readings agree. */
  lemma ServicesIntended(services: Option<Json>)
    ensures Services(Some(ServiceNames)) == Shown([Str("Web"), Str("Mobile")])
    ensures IsTruthy(services) && services.value.Arr? ==> Services(services) == Shown(services.value.items)
    ensures !(IsTruthy(services) && services.value.Arr?) ==> Services(services) == ServicesAsWritten(services)
  {
  }
}
