/**
 * The record operations behind the players application's views: the two
 * toggles (a request's status, a profile's privacy), game-card creation with
 * one card per (profile, game) pair, support-request creation, and the
 * query-scoping functions the list views return. The database is a `Diary`
 * object whose tables are maps from primary key to record.
 */
module Players {
  import opened Wrappers
  import Text
  import Ordering
  import opened Records
  import Access
  import Games

  /** `PlayerRequestCreateView.max_requests`. */
  const MaxRequests := 5

  /** The table of requests after flipping the status of request `pk`. */
  function SwitchStatus(requests: map<int, PlayerRequest>, pk: int): (r: map<int, PlayerRequest>)
    requires pk in requests
    ensures r.Keys == requests.Keys
    ensures r[pk].active == !requests[pk].active && r[pk].(active := requests[pk].active) == requests[pk]
    ensures forall k :: k in requests && k != pk ==> r[k] == requests[k]
  {
    requests[pk := requests[pk].(active := !requests[pk].active)]
  }

  /** Switching a request twice restores the table: the status is a toggle. */
  lemma SwitchStatusTwice(requests: map<int, PlayerRequest>, pk: int)
    requires pk in requests
    ensures SwitchStatus(SwitchStatus(requests, pk), pk) == requests
  {
  }

  /** The table of profiles after flipping the privacy of profile `pk`. */
  function SwitchPrivacy(profiles: map<int, Profile>, pk: int): (r: map<int, Profile>)
    requires pk in profiles
    ensures r.Keys == profiles.Keys
    ensures r[pk].isPrivate == !profiles[pk].isPrivate && r[pk].(isPrivate := profiles[pk].isPrivate) == profiles[pk]
    ensures forall k :: k in profiles && k != pk ==> r[k] == profiles[k]
  {
    profiles[pk := profiles[pk].(isPrivate := !profiles[pk].isPrivate)]
  }

  /** Switching a profile's privacy twice restores the table. */
  lemma SwitchPrivacyTwice(profiles: map<int, Profile>, pk: int)
    requires pk in profiles
    ensures SwitchPrivacy(SwitchPrivacy(profiles, pk), pk) == profiles
  {
  }

  /** Whether `profile` already has a card for `game`. */
  predicate HasCard(cards: map<int, GameCard>, profile: int, game: int) {
    exists c :: c in cards && cards[c].profile == profile && cards[c].game == game
  }

  /** Every card's owner and game exist and its key is below the next automatic key. */
  predicate CardsResolve(cards: map<int, GameCard>, profiles: map<int, Profile>, games: map<int, Games.Game>, nextPk: int) {
    forall c :: c in cards ==> c < nextPk && cards[c].profile in profiles && cards[c].game in games
  }

  /** The unique constraint on `(profile, game)`: a profile has at most one
      card per game. */
  predicate OneCardPerGame(cards: map<int, GameCard>) {
    forall c, d ::
      (c in cards && d in cards && cards[c].profile == cards[d].profile && cards[c].game == cards[d].game)
      ==> c == d
  }

  /** Adding a card for a game the profile has no card for keeps the unique
      constraint. */
  lemma AddCardKeepsOnePerGame(cards: map<int, GameCard>, pk: int, card: GameCard)
    requires OneCardPerGame(cards) && pk !in cards && !HasCard(cards, card.profile, card.game)
    ensures OneCardPerGame(cards[pk := card])
  {
  }

  /** What `GameCardCreateView.get` reports (by its message). */
  datatype CreateOutcome = Created(cardPk: int) | GameNotFound | InvalidGameId | AlreadyInPortfolio

  /** The pending requests of one profile (the `by_profile(...).pending()` query). */
  function PendingOf(requests: map<int, PlayerRequest>, profile: int): (keys: set<int>)
    ensures forall k :: k in keys <==> k in requests && requests[k].profile == profile && requests[k].active
  {
    set k | k in requests && requests[k].profile == profile && requests[k].active
  }

  /** `get_context_data`'s `requests_remaining`: the quota minus the profile's
      pending requests (negative when the quota is exceeded). */
  function RequestsRemaining(requests: map<int, PlayerRequest>, profile: int): (n: int)
    ensures n <= MaxRequests
    ensures n == MaxRequests <==> forall k :: k in requests && requests[k].profile == profile ==> !requests[k].active
  {
    var pending := PendingOf(requests, profile);
    assert (forall k :: k !in pending) ==> pending == {};
    MaxRequests - |pending|
  }

  /** A new pending request of a profile takes one of its remaining slots. */
  lemma AddRequestRemaining(requests: map<int, PlayerRequest>, pk: int, request: PlayerRequest)
    requires pk !in requests && request.active
    ensures RequestsRemaining(requests[pk := request], request.profile) == RequestsRemaining(requests, request.profile) - 1
  {
    assert PendingOf(requests[pk := request], request.profile) == PendingOf(requests, request.profile) + {pk};
  }

  /** Switching a request moves its owner's remaining count by one: solving a
      pending request frees a slot, reopening one takes a slot; other
      profiles are unaffected. */
  lemma SwitchStatusRemaining(requests: map<int, PlayerRequest>, pk: int, profile: int)
    requires pk in requests
    ensures RequestsRemaining(SwitchStatus(requests, pk), profile)
            == RequestsRemaining(requests, profile)
               + (if requests[pk].profile != profile then 0 else if requests[pk].active then 1 else -1)
  {
    var before := PendingOf(requests, profile);
    var after := PendingOf(SwitchStatus(requests, pk), profile);
    if requests[pk].profile != profile {
      assert after == before;
    } else if requests[pk].active {
      assert after == before - {pk};
    } else {
      assert after == before + {pk};
    }
  }

  /** The status filter of `PlayerRequestListView.get_queryset`. */
  predicate Shown(display: Option<string>, request: PlayerRequest) {
    if display == Some("active") then request.active
    else if display == Some("solved") then !request.active
    else true
  }

  /** `order_by('-timestamp')`: newest first. */
  function NewestFirst(a: (int, PlayerRequest), b: (int, PlayerRequest)): bool {
    a.1.timestamp >= b.1.timestamp
  }

  lemma NewestFirstIsPreorder()
    ensures Ordering.Total(NewestFirst) && Ordering.Transitive(NewestFirst)
  {
  }

  /** `PlayerRequestListView.get_queryset`: pending requests for `display=active`,
      solved ones for `display=solved`, all of them otherwise; newest first. */
  function RequestList(requests: map<int, PlayerRequest>, display: Option<string>): (list: seq<(int, PlayerRequest)>)
    ensures multiset(list) == multiset(set e | e in requests.Items && Shown(display, e.1))
    ensures Ordering.SortedBy(list, NewestFirst)
  {
    NewestFirstIsPreorder();
    Ordering.SortBy(Filter(requests, (e: (int, PlayerRequest)) => Shown(display, e.1)), NewestFirst)
  }

  /** The pending list and the solved list split the full list between them. */
  lemma RequestListPartition(requests: map<int, PlayerRequest>)
    ensures multiset(RequestList(requests, Some("active"))) + multiset(RequestList(requests, Some("solved")))
            == multiset(RequestList(requests, None))
    ensures multiset(RequestList(requests, Some("active"))) !! multiset(RequestList(requests, Some("solved")))
  {
    var pending := set e | e in requests.Items && Shown(Some("active"), e.1);
    var solved := set e | e in requests.Items && Shown(Some("solved"), e.1);
    var all := set e | e in requests.Items && Shown(None, e.1);
    assert pending + solved == all;
    assert pending !! solved;
    assert multiset(pending + solved) == multiset(pending) + multiset(solved);
  }

  /** The cards of one profile (the `on_profile(profile)` query). */
  function OnProfile(cards: map<int, GameCard>, profile: int): (keys: set<int>)
    ensures forall c :: c in keys <==> c in cards && cards[c].profile == profile
  {
    set c | c in cards && cards[c].profile == profile
  }

  /** `ProfileView.get_queryset` for the profile `profilePk`: all its cards for
      `display=all`, else those `startsWith` keeps for `display` (the
      `starts_with` manager is not part of this model); nothing — never every
      card — when the profile does not exist. */
  function ProfileCards(profiles: map<int, Profile>, cards: map<int, GameCard>, profilePk: int,
                        display: Option<string>, startsWith: (GameCard, Option<string>) -> bool): (keys: set<int>)
    ensures profilePk !in profiles ==> keys == {}
    ensures keys <= OnProfile(cards, profilePk)
    ensures profilePk in profiles && display == Some("all") ==> keys == OnProfile(cards, profilePk)
    ensures forall c :: c in keys <==>
              profilePk in profiles && c in cards && cards[c].profile == profilePk
              && (display == Some("all") || startsWith(cards[c], display))
  {
    if profilePk in profiles then
      if display == Some("all") then OnProfile(cards, profilePk)
      else set c | c in OnProfile(cards, profilePk) && startsWith(cards[c], display)
    else {}
  }

  /** `ProfileView` as written: the privacy gate looks at the query's
      `profile_pk`, while the list shows the cards of the URL's `pk`. `None`
      means the request was refused. */
  function ProfileViewAsWritten(acting: Access.ActingProfile, profiles: map<int, Profile>, cards: map<int, GameCard>,
                                urlPk: int, profilePkArg: Option<string>, display: Option<string>,
                                startsWith: (GameCard, Option<string>) -> bool): (shown: Option<set<int>>)
    ensures shown.Some? <==> Access.ProfileNotPrivate(acting, profiles, profilePkArg)
    ensures shown.Some? ==> shown.value == ProfileCards(profiles, cards, urlPk, display, startsWith)
  {
    if Access.ProfileNotPrivate(acting, profiles, profilePkArg) then
      Some(ProfileCards(profiles, cards, urlPk, display, startsWith))
    else None
  }

  /** A profile without admin rights sees the cards of someone else's private
      profile by naming a public profile in `profile_pk`. */
  lemma ProfileViewAsWrittenLeaksPrivateCards()
    ensures var profiles := map[1 := Profile("alice", true, false), 2 := Profile("bob", false, false),
                                3 := Profile("carol", false, false)];
            var cards := map[10 := GameCard(1, 5, false, 0)];
            var acting := Access.ActingProfile(3, false);
            profiles[1].isPrivate && !acting.isAdmin && acting.pk != 1
            && ProfileViewAsWritten(acting, profiles, cards, 1, Some("2"), Some("all"),
                                    (c: GameCard, d: Option<string>) => true) == Some({10})
  {
    var profiles := map[1 := Profile("alice", true, false), 2 := Profile("bob", false, false),
                        3 := Profile("carol", false, false)];
    var cards := map[10 := GameCard(1, 5, false, 0)];
    var acting := Access.ActingProfile(3, false);
    assert Text.IntToString(2) == "2";
    LookupPrintedKey(profiles, 2);
    assert Access.ProfileNotPrivate(acting, profiles, Some("2"));
    var all := (c: GameCard, d: Option<string>) => true;
    assert ProfileCards(profiles, cards, 1, Some("all"), all) == {10};
  }

  /** `ProfileView` with the gate applied to the profile it lists: the cards
      are shown exactly when that profile exists and is visible to the acting
      profile. */
  function ProfileViewGuarded(acting: Access.ActingProfile, profiles: map<int, Profile>, cards: map<int, GameCard>,
                              urlPk: int, display: Option<string>,
                              startsWith: (GameCard, Option<string>) -> bool): (shown: Option<set<int>>)
    ensures shown.Some? <==> urlPk in profiles && (acting.isAdmin || urlPk == acting.pk || !profiles[urlPk].isPrivate)
    ensures shown.Some? ==> shown.value == ProfileCards(profiles, cards, urlPk, display, startsWith)
  {
    LookupPrintedKey(profiles, urlPk);
    if Access.ProfileNotPrivate(acting, profiles, Some(Text.IntToString(urlPk))) then
      Some(ProfileCards(profiles, cards, urlPk, display, startsWith))
    else None
  }

  /** The username of a card's owner (`profile__user__username`). */
  function OwnerName(profiles: map<int, Profile>, card: GameCard): string {
    if card.profile in profiles then profiles[card.profile].username else ""
  }

  /** `order_by('profile__user__username')`. */
  function ByOwnerName(profiles: map<int, Profile>): ((int, GameCard), (int, GameCard)) -> bool {
    Ordering.ByText((e: (int, GameCard)) => OwnerName(profiles, e.1))
  }

  /** The card's owner exists and is not private. */
  predicate OnPublicProfile(profiles: map<int, Profile>, card: GameCard) {
    card.profile in profiles && !profiles[card.profile].isPrivate
  }

  /** `GameCardListByGameView.get_queryset`: the cards of game `gamePk` on
      public profiles, ordered by their owners' usernames; nothing when the game
      does not exist. */
  function PublicCardsForGame(profiles: map<int, Profile>, games: map<int, Games.Game>,
                              cards: map<int, GameCard>, gamePk: int): (list: seq<(int, GameCard)>)
    ensures multiset(list) == multiset(set e | e in cards.Items && gamePk in games
                                               && e.1.game == gamePk && OnPublicProfile(profiles, e.1))
    ensures gamePk !in games ==> list == []
    ensures Ordering.SortedBy(list, ByOwnerName(profiles))
  {
    if gamePk in games then
      Ordering.ByTextIsPreorder((e: (int, GameCard)) => OwnerName(profiles, e.1));
      Ordering.SortBy(Filter(cards, (e: (int, GameCard)) => e.1.game == gamePk && OnPublicProfile(profiles, e.1)),
                      ByOwnerName(profiles))
    else
      assert (set e | e in cards.Items && gamePk in games && e.1.game == gamePk && OnPublicProfile(profiles, e.1)) == {};
      []
  }

  /** The path of the `profile/<int:pk>/` route under `players/`. */
  const ProfilePath: string := "/players/profile/"

  /** The `<pk>` segment of a profile page URL: the text after the route's
      path up to the next "/"; `None` for any other URL. */
  function ProfilePageKey(url: string): Option<string> {
    if ProfilePath <= url then
      var rest := url[|ProfilePath|..];
      var i := Text.IndexOf(rest, "/");
      if i >= 0 then Some(rest[..i]) else None
    else None
  }

  lemma ProfilePageKeyOf(key: string, tail: string)
    requires forall i :: 0 <= i < |key| ==> key[i] != '/'
    requires tail != [] && tail[0] == '/'
    ensures ProfilePageKey(ProfilePath + key + tail) == Some(key)
  {
    var url := ProfilePath + key + tail;
    var rest := url[|ProfilePath|..];
    assert rest == key + tail;
    assert Text.OccursAt(rest, "/", |key|);
    forall k | 0 <= k < |key| ensures !Text.OccursAt(rest, "/", k) {
      assert rest[k] == key[k];
      assert rest[k..k + 1][0] == rest[k];
      assert "/"[0] == '/';
    }
    assert rest[..|key|] == key;
  }

  /** `GameCardDeleteView.get_success_url`: the acting profile's own page,
      listing all of its cards. */
  function DeleteSuccessUrl(actingPk: int): (url: string)
    ensures ProfilePath <= url
    ensures ProfilePageKey(url) == Some(Text.IntToString(actingPk))
  {
    var key := Text.IntToString(actingPk);
    assert forall i :: 0 <= i < |key| ==> key[i] != '/';
    ProfilePageKeyOf(key, "/?display=all");
    ProfilePath + key + "/?display=all"
  }

  /** The page reached after a deletion is the acting profile's: its `<pk>`
      segment looks up to that profile. */
  lemma DeleteSuccessUrlFindsActor<V>(profiles: map<int, V>, actingPk: int)
    requires actingPk in profiles
    ensures LookupPk(profiles, ProfilePageKey(DeleteSuccessUrl(actingPk))) == Found(actingPk)
  {
    LookupPrintedKey(profiles, actingPk);
  }

  /** The page reached after a deletion depends only on who deleted: different
      acting profiles land on different pages, whoever owned the card. */
  lemma DeleteSuccessUrlNamesActor(a: int, b: int)
    ensures DeleteSuccessUrl(a) == DeleteSuccessUrl(b) <==> a == b
  {
    Text.IntToStringInjective(a, b);
  }


  /** The database of the players application. */
  class Diary {
    var profiles: map<int, Profile>
    var games: map<int, Games.Game>
    var cards: map<int, GameCard>
    var requests: map<int, PlayerRequest>
    var nextCardPk: int
    var nextRequestPk: int

    /** Foreign keys resolve, keys are below the next automatic key, and
        a profile has at most one card per game. */
    predicate Valid()
      reads this
    {
      CardsResolve(cards, profiles, games, nextCardPk)
      && OneCardPerGame(cards)
      && (forall k :: k in requests ==> k < nextRequestPk && requests[k].profile in profiles)
    }

    constructor (profiles: map<int, Profile>, games: map<int, Games.Game>)
      ensures Valid()
      ensures this.profiles == profiles && this.games == games && cards == map[] && requests == map[]
    {
      this.profiles := profiles;
      this.games := games;
      cards := map[];
      requests := map[];
      nextCardPk := 1;
      nextRequestPk := 1;
    }

    /** `PlayerRequestSwitchView.change_status(pk)`: flips the request's status
        and reports success, or reports failure and changes nothing when there
        is no such request. The URL's `<int:pk>` converter makes `pk` an integer. */
    method ChangeStatus(requestPk: int) returns (changed: bool)
      requires Valid()
      modifies this
      ensures Valid()
      ensures changed <==> requestPk in old(requests)
      ensures requests == if changed then SwitchStatus(old(requests), requestPk) else old(requests)
      ensures profiles == old(profiles) && games == old(games) && cards == old(cards)
      ensures nextCardPk == old(nextCardPk) && nextRequestPk == old(nextRequestPk)
    {
      if requestPk in requests {
        requests := SwitchStatus(requests, requestPk);
        changed := true;
      } else {
        changed := false;
      }
    }

    /** `ProfileChangePrivacyView.change_privacy(profile_pk)`: flips the named
        profile's privacy; a missing or malformed key changes nothing. */
    method ChangePrivacy(profilePk: Option<string>) returns (changed: bool)
      requires Valid()
      modifies this
      ensures Valid()
      ensures changed <==> LookupPk(old(profiles), profilePk).Found?
      ensures profiles == if changed then SwitchPrivacy(old(profiles), LookupPk(old(profiles), profilePk).pk)
                          else old(profiles)
      ensures requests == old(requests) && games == old(games) && cards == old(cards)
      ensures nextCardPk == old(nextCardPk) && nextRequestPk == old(nextRequestPk)
    {
      var found := LookupPk(profiles, profilePk);
      if found.Found? {
        profiles := SwitchPrivacy(profiles, found.pk);
        changed := true;
      } else {
        changed := false;
      }
    }

    /** The privacy view behind its ownership gate: an admin, or the owner
        naming their own profile, flips an existing profile's privacy; a
        profile without admin rights can flip no other. */
    method ChangePrivacyView(acting: Access.ActingProfile, profilePk: Option<string>) returns (changed: bool)
      requires Valid()
      modifies this
      ensures Valid()
      ensures changed <==> Access.ProfileOwnership(acting, profilePk) && LookupPk(old(profiles), profilePk).Found?
      ensures changed && !acting.isAdmin ==> LookupPk(old(profiles), profilePk) == Found(acting.pk)
      ensures profiles == if changed then SwitchPrivacy(old(profiles), LookupPk(old(profiles), profilePk).pk)
                          else old(profiles)
      ensures requests == old(requests) && games == old(games) && cards == old(cards)
      ensures nextCardPk == old(nextCardPk) && nextRequestPk == old(nextRequestPk)
    {
      if Access.ProfileOwnership(acting, profilePk) {
        if !acting.isAdmin {
          Access.OwnerReachesOwnProfile(acting, profiles, profilePk);
        }
        changed := ChangePrivacy(profilePk);
      } else {
        changed := false;
      }
    }

    /** `GameCardCreateView.get`: a new card of the acting profile for the game
        named by `game_pk`, unless the key is malformed, the game does not exist
        or the profile already has a card for it (the unique constraint). The
        card's owner is always the acting profile. */
    method CreateGameCard(actingPk: int, gamePk: Option<string>) returns (outcome: CreateOutcome)
      requires Valid() && actingPk in profiles
      modifies this
      ensures Valid()
      ensures outcome == InvalidGameId <==> LookupPk(old(games), gamePk).Invalid?
      ensures outcome == GameNotFound <==> LookupPk(old(games), gamePk).Missing?
      ensures outcome == AlreadyInPortfolio <==>
                LookupPk(old(games), gamePk).Found? && HasCard(old(cards), actingPk, LookupPk(old(games), gamePk).pk)
      ensures outcome.Created? ==>
                outcome.cardPk !in old(cards)
                && cards == old(cards)[outcome.cardPk := GameCard(actingPk, LookupPk(old(games), gamePk).pk, false, 0)]
      ensures !outcome.Created? ==> cards == old(cards)
      ensures profiles == old(profiles) && games == old(games) && requests == old(requests)
    {
      var found := LookupPk(games, gamePk);
      match found
      case Invalid =>
        outcome := InvalidGameId;
      case Missing =>
        outcome := GameNotFound;
      case Found(g) =>
        outcome := AddCard(actingPk, g);
    }

    /** The part of `GameCardCreateView.get` after the game was found: a new
        card unless the profile already has one for the game. */
    method AddCard(actingPk: int, game: int) returns (outcome: CreateOutcome)
      requires Valid() && actingPk in profiles && game in games
      modifies this
      ensures Valid()
      ensures outcome.Created? || outcome == AlreadyInPortfolio
      ensures outcome == AlreadyInPortfolio <==> HasCard(old(cards), actingPk, game)
      ensures outcome.Created? ==>
                outcome.cardPk !in old(cards)
                && cards == old(cards)[outcome.cardPk := GameCard(actingPk, game, false, 0)]
      ensures !outcome.Created? ==> cards == old(cards)
      ensures profiles == old(profiles) && games == old(games) && requests == old(requests)
    {
      if HasCard(cards, actingPk, game) {
        outcome := AlreadyInPortfolio;
      } else {
        var pk, card := nextCardPk, GameCard(actingPk, game, false, 0);
        assert pk !in cards;
        AddCardKeepsOnePerGame(cards, pk, card);
        var updated := cards[pk := card];
        assert CardsResolve(updated, profiles, games, pk + 1);
        cards, nextCardPk := updated, pk + 1;
        outcome := Created(pk);
      }
    }

    /** `PlayerRequestCreateView.form_valid`: a new pending request of the
        acting profile; it takes one of that profile's remaining slots. */
    method CreateRequest(actingPk: int, text: string, now: int) returns (requestPk: int)
      requires Valid() && actingPk in profiles
      modifies this
      ensures Valid()
      ensures requestPk !in old(requests)
      ensures requests == old(requests)[requestPk := PlayerRequest(actingPk, now, text, true)]
      ensures RequestsRemaining(requests, actingPk) == RequestsRemaining(old(requests), actingPk) - 1
      ensures profiles == old(profiles) && games == old(games) && cards == old(cards)
    {
      requestPk := nextRequestPk;
      AddRequestRemaining(requests, requestPk, PlayerRequest(actingPk, now, text, true));
      requests := requests[requestPk := PlayerRequest(actingPk, now, text, true)];
      nextRequestPk := nextRequestPk + 1;
    }
  }
}
