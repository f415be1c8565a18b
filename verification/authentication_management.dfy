/** The authentication entry of the source edit form: which applications of
    the source use the authentication, the text that reports it, and the
    removal intent staged when the remove button is pressed. */
module AuthenticationManagement {
  import opened Wrappers
  import opened Seqs
  import opened Js
  import opened Catalog

  const UsedByPrefix := "used by "
  const NotUsedText := "not used by any app"
  const NameSeparator := ", "

  /** Staged intent to delete an authentication. */
  datatype PendingRemoval = PendingRemoval(auth: AuthValue, appNames: seq<string>, schemaAuth: AuthSchema)

  /** The update sent to the edit form's local state reducer. */
  datatype ContextAction = SetAuthRemoving(removingAuth: PendingRemoval)

  /** What the entry shows: the authentication type's name, the remove
      button (with the action its click sends) when present, and the usage
      description. */
  datatype View = View(title: string, removeButton: Option<ContextAction>, description: string)

  /** Application `a` references authentication `authId`. */
  predicate UsesAuth(authId: string, a: Application)
  {
    authId in a.authentications
  }

  function Uses(authId: string): Application -> bool
  {
    a => UsesAuth(authId, a)
  }

  /** The applications that reference authentication `authId`, in their
      original order. */
  function AttachedAppTypes(applications: seq<Application>, authId: string): (r: seq<Application>)
    ensures IsSubsequence(r, applications)
    ensures forall i :: 0 <= i < |r| ==> authId in r[i].authentications
    ensures |r| == Count(Uses(authId), applications)
  {
    FilterIsOrderedSelection(Uses(authId), applications);
    Filter(Uses(authId), applications)
  }

  function HasId(id: string): AppType -> bool
  {
    (t: AppType) => t.id == id
  }

  /** The first application type with id `id`. */
  function FindAppType(appTypes: seq<AppType>, id: string): (r: Option<AppType>)
    ensures r.None? <==> forall i :: 0 <= i < |appTypes| ==> appTypes[i].id != id
    ensures r.Some? ==> r.value in appTypes
    ensures r.Some? ==> r.value.id == id
    ensures r.Some? ==> exists i :: 0 <= i < |appTypes| && IsFirst(HasId(id), appTypes, i) && appTypes[i] == r.value
  {
    Find(HasId(id), appTypes)
  }

  /** The application type of `a`: looked up only when its type id is
      truthy. */
  function ResolveAppType(appTypes: seq<AppType>, a: Application): Option<AppType>
  {
    if Truthy(a.applicationTypeId) then FindAppType(appTypes, a.applicationTypeId.value) else None
  }

  predicate Resolves(appTypes: seq<AppType>, a: Application)
  {
    ResolveAppType(appTypes, a).Some?
  }

  function ResolvesIn(appTypes: seq<AppType>): Application -> bool
  {
    a => Resolves(appTypes, a)
  }

  /** The display names of the application types of `attached`, in order;
      applications whose type cannot be resolved are dropped. */
  function AppNames(attached: seq<Application>, appTypes: seq<AppType>): (names: seq<string>)
    ensures |names| == Count(ResolvesIn(appTypes), attached)
    ensures |names| <= |attached|
    ensures forall k :: 0 <= k < |names| ==> names[k] in DisplayNames(appTypes)
  {
    if |attached| == 0 then []
    else
      var head := match ResolveAppType(appTypes, attached[0])
        case Some(t) => [t.displayName]
        case None => [];
      head + AppNames(attached[1..], appTypes)
  }

  /** The display names of all known application types. */
  function DisplayNames(appTypes: seq<AppType>): set<string>
  {
    set t | t in appTypes :: t.displayName
  }

  function DisplayNameOf(appTypes: seq<AppType>): Application -> string
  {
    a => ResolveAppType(appTypes, a).GetOr(AppType("", "", "", [], map[])).displayName
  }

  /** Reference formulation: keep the applications whose type resolves,
      then take each one's display name. */
  lemma {:induction false} AppNamesIsResolvedDisplayNames(attached: seq<Application>, appTypes: seq<AppType>)
    ensures AppNames(attached, appTypes) == Map(DisplayNameOf(appTypes), Filter(ResolvesIn(appTypes), attached))
    decreases |attached|
  {
    if |attached| > 0 {
      AppNamesIsResolvedDisplayNames(attached[1..], appTypes);
      var rest := Filter(ResolvesIn(appTypes), attached[1..]);
      if ResolvesIn(appTypes)(attached[0]) {
        MapConcat(DisplayNameOf(appTypes), [attached[0]], rest);
      }
    }
  }

  /** The usage sentence: the names joined with ", " after "used by ", or a
      fixed sentence when there are none. */
  function UsageText(appNames: seq<string>): (s: string)
    ensures |appNames| == 0 <==> s == NotUsedText
    ensures |appNames| > 0 ==> UsedByPrefix + appNames[0] <= s
    ensures |appNames| > 0 ==> |s| == |UsedByPrefix| + SumOfLengths(appNames) + (|appNames| - 1) * |NameSeparator|
    ensures |appNames| > 0 ==> s == UsedByPrefix + Join(appNames, NameSeparator)
  {
    if |appNames| > 0 then
      var joined := Join(appNames, NameSeparator);
      assert (UsedByPrefix + joined)[0] == 'u' != NotUsedText[0];
      assert (UsedByPrefix + joined)[..|UsedByPrefix| + |appNames[0]|] == UsedByPrefix + joined[..|appNames[0]|];
      UsedByPrefix + joined
    else NotUsedText
  }

  /** A further name extends a non-empty usage sentence by ", " and the
      name. */
  lemma UsageTextAppend(appNames: seq<string>, name: string)
    requires |appNames| > 0
    ensures UsageText(appNames + [name]) == UsageText(appNames) + NameSeparator + name
  {
    JoinConcat(appNames, [name], NameSeparator);
  }

  /** Every name appears, in order, after "used by ". */
  lemma UsageTextExamples()
    ensures UsageText([]) == "not used by any app"
    ensures UsageText(["A"]) == "used by A"
    ensures UsageText(["A", "B"]) == "used by A, B"
  {
  }

  /** The staged removal: the authentication, the names of the applications
      using it, and its schema entry. */
  function RemovalIntent(applications: seq<Application>, auth: AuthValue, schemaAuth: AuthSchema,
                         appTypes: seq<AppType>): (action: ContextAction)
    ensures action.removingAuth.auth == auth && action.removingAuth.schemaAuth == schemaAuth
    ensures |action.removingAuth.appNames| == Count(ResolvesIn(appTypes), AttachedAppTypes(applications, auth.id))
    ensures action.removingAuth.appNames
         == Map(DisplayNameOf(appTypes), Filter(ResolvesIn(appTypes), AttachedAppTypes(applications, auth.id)))
  {
    AppNamesIsResolvedDisplayNames(AttachedAppTypes(applications, auth.id), appTypes);
    SetAuthRemoving(PendingRemoval(auth, AppNames(AttachedAppTypes(applications, auth.id), appTypes), schemaAuth))
  }

  /** The rendered entry for `auth` on a source whose applications are
      `applications`. */
  function Render(applications: seq<Application>, auth: AuthValue, schemaAuth: AuthSchema,
                  appTypes: seq<AppType>, isDeleting: bool): (v: View)
    ensures v.title == schemaAuth.name
    ensures v.removeButton.Some? <==> !isDeleting
    ensures v.removeButton.Some? ==> v.removeButton.value == RemovalIntent(applications, auth, schemaAuth, appTypes)
    ensures ("id: " + auth.id + " ") <= v.description
    ensures v.description[|auth.id| + 5..] == UsageText(RemovalIntent(applications, auth, schemaAuth, appTypes).removingAuth.appNames)
  {
    var intent := RemovalIntent(applications, auth, schemaAuth, appTypes);
    var description := "id: " + auth.id + " " + UsageText(intent.removingAuth.appNames);
    View(schemaAuth.name, if isDeleting then None else Some(intent), description)
  }

  /** The description says "not used by any app" exactly when no
      application that references the authentication has a resolvable
      application type. */
  lemma NotUsedIff(applications: seq<Application>, auth: AuthValue, appTypes: seq<AppType>)
    ensures UsageText(AppNames(AttachedAppTypes(applications, auth.id), appTypes)) == NotUsedText
        <==> forall i :: 0 <= i < |applications| && UsesAuth(auth.id, applications[i]) ==> !Resolves(appTypes, applications[i])
  {
  }
}
