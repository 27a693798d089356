/** The identity bridge on the web app's pages: it answers `GET_USER_ID` from the
    first source that holds a user (the stored "user" item, the app's auth helper,
    the user the app exposes on `window`), answers `PING`, and injects its auth
    helper only on the web app's own hosts. */
module IdentityBridge {
  import opened Js
  import opened Text

  /** The fields of a user object the bridge passes on; absent ones are `None`. */
  datatype UserObj = UserObj(id: Option<string>, email: Option<string>, name: Option<string>)

  /** What `JSON.parse` makes of the stored "user" item. */
  datatype Parsed = Unparsable | JsonNull | Primitive | Object(user: UserObj)

  /** What `getCurrentUser()` of the auth helper does: return a user or nothing, or throw. */
  datatype HelperCall = Returns(user: Option<UserObj>) | Throws(message: string)

  /** The three sources; `stored` is `None` when the item is absent or empty, and
      `helper` is `None` when the page exposes no auth helper. */
  datatype Sources = Sources(stored: Option<Parsed>, helper: Option<HelperCall>, windowUser: Option<UserObj>)

  datatype UserReply = Found(userId: Option<string>, email: Option<string>, name: Option<string>) | NotFound(error: string)

  const NoUser := "User not logged in or user data not accessible"

  function FoundFrom(u: UserObj): UserReply {
    Found(u.id, u.email, u.name)
  }

  /** The part of `handleGetUserId` after the stored item. */
  function FromHelper(src: Sources): UserReply {
    match src.helper
    case Some(Throws(message)) => NotFound(message)
    case Some(Returns(Some(u))) => FoundFrom(u)
    case _ =>
      match src.windowUser
      case Some(u) => FoundFrom(u)
      case None => NotFound(NoUser)
  }

  /** `handleGetUserId` as written: reading `id` of a parsed `null` throws inside the
      parse `try` and falls through, while a parsed number, string or boolean has no
      `id` and is answered as a user with no fields. */
  function GetUserId(src: Sources): (r: UserReply)
    ensures r.NotFound? ==>
      r.error == NoUser || (src.helper.Some? && src.helper.value.Throws? && r.error == src.helper.value.message)
    ensures src.stored == Some(Primitive) ==> r == Found(None, None, None)
  {
    match src.stored
    case Some(Object(u)) => FoundFrom(u)
    case Some(Primitive) => Found(None, None, None)
    case _ => FromHelper(src)
  }

  /** `handleGetUserId` with every stored value that is not an object falling through. */
  function GetUserIdObjectsOnly(src: Sources): (r: UserReply)
    ensures r.NotFound? ==>
      r.error == NoUser || (src.helper.Some? && src.helper.value.Throws? && r.error == src.helper.value.message)
    ensures r.Found? ==>
      (src.stored.Some? && src.stored.value.Object?) || (src.helper.Some? && src.helper.value.Returns?) || src.windowUser.Some?
  {
    match src.stored
    case Some(Object(u)) => FoundFrom(u)
    case _ => FromHelper(src)
  }

  /** A stored user object wins over every other source; then a user from the auth helper;
      then the window's user. */
  lemma SourcePriority(src: Sources)
    ensures src.stored.Some? && src.stored.value.Object? ==> GetUserId(src) == FoundFrom(src.stored.value.user)
    ensures ((src.stored.None? || src.stored == Some(Unparsable) || src.stored == Some(JsonNull))
      && src.helper.Some? && src.helper.value.Returns? && src.helper.value.user.Some?) ==>
      GetUserId(src) == FoundFrom(src.helper.value.user.value)
    ensures ((src.stored.None? || src.stored == Some(Unparsable) || src.stored == Some(JsonNull))
      && (src.helper.None? || src.helper == Some(Returns(None))) && src.windowUser.Some?) ==>
      GetUserId(src) == FoundFrom(src.windowUser.value)
  {
  }

  /** An unparsable item, a parsed `null` and an empty or absent item all lead to the
      same answer, and so does a helper that returns no user compared with no helper. */
  lemma FallThrough(src: Sources)
    ensures GetUserId(src.(stored := Some(Unparsable))) == GetUserId(src.(stored := None))
    ensures GetUserId(src.(stored := Some(JsonNull))) == GetUserId(src.(stored := None))
    ensures GetUserId(src.(stored := None, helper := Some(Returns(None)))) ==
      GetUserId(src.(stored := None, helper := None))
  {
  }

  /** With no user anywhere the request fails with the not-logged-in message; a throwing
      helper fails with its own message. */
  lemma NoSourceFails(src: Sources)
    ensures src.stored.None? && src.helper.None? && src.windowUser.None? ==> GetUserId(src) == NotFound(NoUser)
    ensures (src.stored.None? || src.stored == Some(Unparsable)) && src.helper.Some? && src.helper.value.Throws? ==>
      GetUserId(src) == NotFound(src.helper.value.message)
  {
  }

  /** Every success carries the id, email and name of one and the same user object, from
      the first source that had one; the stored primitive is the exception. */
  lemma AnswerFromOneUser(src: Sources)
    requires GetUserId(src).Found?
    requires src.stored != Some(Primitive)
    ensures exists u :: (GetUserId(src) == FoundFrom(u)
      && ((src.stored.Some? && src.stored.value.Object? && u == src.stored.value.user)
        || (src.helper.Some? && src.helper.value == Returns(Some(u)))
        || src.windowUser == Some(u)))
  {
  }

  /** A stored "42" is answered as a user with no id although the auth helper has one. */
  lemma PrimitiveAnsweredAsUser(u: UserObj)
    requires u.id.Some?
    ensures var src := Sources(Some(Primitive), Some(Returns(Some(u))), None);
      GetUserId(src) == Found(None, None, None) && GetUserIdObjectsOnly(src) == FoundFrom(u)
  {
  }

  /** Without the primitive case every success comes from a user object, and a stored
      value that is not an object is the same as none. */
  lemma ObjectsOnlyFindsObjects(src: Sources)
    ensures GetUserIdObjectsOnly(src).Found? ==> exists u :: (GetUserIdObjectsOnly(src) == FoundFrom(u)
      && ((src.stored.Some? && src.stored.value.Object? && u == src.stored.value.user)
        || (src.helper.Some? && src.helper.value == Returns(Some(u)))
        || src.windowUser == Some(u)))
    ensures src.stored.None? || !src.stored.value.Object? ==>
      GetUserIdObjectsOnly(src) == GetUserIdObjectsOnly(src.(stored := None))
    ensures src.stored != Some(Primitive) ==> GetUserIdObjectsOnly(src) == GetUserId(src)
  {
  }

  /** The message listener. */
  datatype BridgeReply = UserAnswer(reply: UserReply) | Alive(message: string) | UnknownAction(error: string)

  function OnMessage(action: Option<string>, src: Sources): BridgeReply {
    if action == Some("GET_USER_ID") then UserAnswer(GetUserId(src))
    else if action == Some("PING") then Alive("Web app content script is alive")
    else UnknownAction("Unknown action")
  }

  /** `PING` is answered as alive, `GET_USER_ID` by the source chain, anything else is
      refused. */
  lemma MessageDispatch(action: Option<string>, src: Sources)
    ensures OnMessage(action, src).UserAnswer? <==> action == Some("GET_USER_ID")
    ensures OnMessage(action, src).Alive? <==> action == Some("PING")
    ensures OnMessage(action, src).UnknownAction? <==> action != Some("GET_USER_ID") && action != Some("PING")
  {
    assert "GET_USER_ID"[0] != "PING"[0];
  }

  /** The domain guard of `injectAuthHelper`. */
  predicate InjectsHelper(href: string) {
    Contains(href, "localhost:3000") || Contains(href, "tiktok-automator")
  }

  /** Text around an occurrence does not hide it. */
  lemma ContainsMiddle(p: string, sub: string, q: string)
    ensures Contains(p + sub + q, sub)
  {
    assert (p + sub + q)[|p|..|p| + |sub|] == sub;
    assert OccursAt(p + sub + q, sub, |p|);
    ContainsAt(p + sub + q, sub);
  }

  /** The helper is injected on every URL that mentions the local web app's host or the
      app's name, and never on one that mentions neither. */
  lemma InjectionGuard(p: string, q: string, href: string)
    ensures InjectsHelper(p + "localhost:3000" + q)
    ensures InjectsHelper(p + "tiktok-automator" + q)
    ensures !Contains(href, "localhost:3000") && !Contains(href, "tiktok-automator") ==> !InjectsHelper(href)
  {
    ContainsMiddle(p, "localhost:3000", q);
    ContainsMiddle(p, "tiktok-automator", q);
  }
}
