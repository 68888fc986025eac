/**
 * The access-control rules of the players application: group membership with
 * the `'All'` wildcard, the anonymous-only gate, profile ownership and profile
 * visibility. Each rule is a pure test over the acting user, the acting
 * profile and, for visibility, the profile table.
 */
module Access {
  import opened Wrappers
  import Text
  import opened Records

  /** The user a request is made by. */
  datatype User = Anonymous | Authenticated(username: string, groups: set<string>)

  /** The acting user's own profile: its key and its admin rights. */
  datatype ActingProfile = ActingProfile(pk: int, isAdmin: bool)

  /** The groups a user belongs to; an anonymous user belongs to none. */
  function Groups(user: User): set<string> {
    if user.Anonymous? then {} else user.groups
  }

  /** `is_member_of(user, group_names)`: the `'All'` wildcard admits everyone,
      otherwise one of the user's groups must be named. */
  function IsMemberOf(user: User, groupNames: seq<string>): (member: bool)
    ensures Groups(user) == {} ==> (member <==> "All" in groupNames)
    ensures member && "All" !in groupNames ==> user.Authenticated?
  {
    "All" in groupNames || exists i :: 0 <= i < |groupNames| && groupNames[i] in Groups(user)
  }

  lemma WildcardAdmitsEveryone(user: User, groupNames: seq<string>)
    requires "All" in groupNames
    ensures IsMemberOf(user, groupNames)
  {
  }

  /** Without the wildcard, membership is a non-empty intersection of the
      user's groups with the named ones. */
  lemma MembershipIsIntersection(user: User, groupNames: seq<string>)
    requires "All" !in groupNames
    ensures IsMemberOf(user, groupNames) <==> Groups(user) * (set g | g in groupNames) != {}
  {
    var named := set g | g in groupNames;
    if IsMemberOf(user, groupNames) {
      var i :| 0 <= i < |groupNames| && groupNames[i] in Groups(user);
      assert groupNames[i] in Groups(user) * named;
    }
  }

  /** An empty list of allowed groups admits nobody. */
  lemma NoGroupsNoRights(user: User)
    ensures !IsMemberOf(user, [])
  {
  }

  /** `get_context_rights`: a context holding exactly `user_has_rights`. */
  function ContextRights(user: User, allowedGroups: seq<string>): (context: map<string, bool>)
    ensures context.Keys == {"user_has_rights"}
    ensures context["user_has_rights"] <==> IsMemberOf(user, allowedGroups)
  {
    map["user_has_rights" := IsMemberOf(user, allowedGroups)]
  }

  /** `AnonymousRequiredMixin.test_func`: only a user who is not logged in passes. */
  function AnonymousRequired(user: User): (pass: bool)
    ensures pass <==> Groups(user) == {} && !user.Authenticated?
  {
    user.Anonymous?
  }

  /** A visitor who passes the anonymous-only test has no rights in any view
      that names its groups: only the `'All'` wildcard admits them. */
  lemma AnonymousHasNoRights(user: User, allowedGroups: seq<string>)
    requires AnonymousRequired(user) && "All" !in allowedGroups
    ensures !IsMemberOf(user, allowedGroups)
    ensures !ContextRights(user, allowedGroups)["user_has_rights"]
  {
  }

  /** Python's `str(x)` of an optional query-string value: `None` prints as "None". */
  function PyStr(arg: Option<string>): (s: string)
    ensures arg.Some? ==> s == arg.value
  {
    match arg
    case None => "None"
    case Some(s) => s
  }

  /** `ProfileOwnershipRequiredMixin.test_func`: admin rights, or the query's
      `profile_pk` printed the same as the acting profile's key. */
  function ProfileOwnership(acting: ActingProfile, profilePk: Option<string>): (pass: bool)
    ensures acting.isAdmin ==> pass
    ensures pass && !acting.isAdmin ==> profilePk == Some(Text.IntToString(acting.pk))
  {
    var own := Text.IntToString(acting.pk);
    assert own[0] == '-' || Text.IsDigit(own[0]);
    assert "None"[0] == 'N';
    acting.isAdmin || PyStr(profilePk) == own
  }

  /** A request without `profile_pk` passes only for an admin. */
  lemma OwnershipWithoutKey(acting: ActingProfile)
    ensures ProfileOwnership(acting, None) <==> acting.isAdmin
  {
    var s := Text.IntToString(acting.pk);
    assert s[0] == '-' || Text.IsDigit(s[0]);
    assert "None"[0] == 'N';
  }

  /** For a profile without admin rights, a printed key passes exactly when it is its own. */
  lemma OwnershipByKey(acting: ActingProfile, k: int)
    requires !acting.isAdmin
    ensures ProfileOwnership(acting, Some(Text.IntToString(k))) <==> k == acting.pk
  {
    Text.IntToStringInjective(k, acting.pk);
  }

  /** A profile without admin rights that passes the ownership test names
      its own profile, so a view that looks `profile_pk` up reaches only that one. */
  lemma OwnerReachesOwnProfile(acting: ActingProfile, profiles: map<int, Profile>, profilePk: Option<string>)
    requires !acting.isAdmin && ProfileOwnership(acting, profilePk)
    ensures LookupPk(profiles, profilePk) == if acting.pk in profiles then Found(acting.pk) else Missing
  {
    OwnershipWithoutKey(acting);
    assert profilePk == Some(Text.IntToString(acting.pk));
    LookupPrintedKey(profiles, acting.pk);
  }

  /** The comparison is textual: "07" names profile 7 for the database, yet fails the test. */
  lemma OwnershipIsTextual()
    ensures LookupPk(map[7 := 0], Some("07")) == Found(7)
    ensures !ProfileOwnership(ActingProfile(7, false), Some("07"))
  {
    assert Text.IntToString(7) == "7";
    assert Text.AllDigits("07");
    Text.StripOfDigits("07");
    assert Text.DigitsValue("07") == 7 by {
      assert "07"[..1] == "0";
    }
    assert Text.ParseInt("07") == Some(7);
  }

  /** `ProfileNotPrivateRequiredMixin.test_func`: the profile named by
      `profile_pk` must exist and be public, the acting profile's own, or seen by
      an admin. A missing or malformed key fails for everyone. */
  function ProfileNotPrivate(acting: ActingProfile, profiles: map<int, Profile>, profilePk: Option<string>): (pass: bool)
    ensures pass ==> LookupPk(profiles, profilePk).Found?
  {
    match LookupPk(profiles, profilePk)
    case Found(k) => acting.isAdmin || k == acting.pk || !profiles[k].isPrivate
    case _ => false
  }

  /** For an existing profile named by its printed key, visibility is: admin,
      self, or not private. */
  lemma VisibilityByKey(acting: ActingProfile, profiles: map<int, Profile>, k: int)
    requires k in profiles
    ensures ProfileNotPrivate(acting, profiles, Some(Text.IntToString(k)))
            <==> acting.isAdmin || k == acting.pk || !profiles[k].isPrivate
  {
    LookupPrintedKey(profiles, k);
  }

  /** A missing or malformed key fails, even for an admin. */
  lemma VisibilityNeedsProfile(acting: ActingProfile, profiles: map<int, Profile>, profilePk: Option<string>)
    requires !LookupPk(profiles, profilePk).Found?
    ensures !ProfileNotPrivate(acting, profiles, profilePk)
  {
  }

  /** A private profile is hidden from an unrelated profile without admin rights. */
  lemma PrivateProfileHidden(acting: ActingProfile, profiles: map<int, Profile>, k: int)
    requires k in profiles && profiles[k].isPrivate
    requires !acting.isAdmin && k != acting.pk
    ensures !ProfileNotPrivate(acting, profiles, Some(Text.IntToString(k)))
  {
    LookupPrintedKey(profiles, k);
  }
}
