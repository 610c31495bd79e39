/**
 * The Firestore documents the cloud functions read and write, as plain values,
 * and the one helper that interprets a plan document (`extractPlanDetails`).
 *
 *   planes/{planId}                  PlanDoc
 *   planes/{planId}/inscritos/{uid}  Inscrito   (a subscription)
 *   users/{uid}                      UserDoc
 *   users/{uid}/planes/{planId}      an entry of the reverse index
 */
module Documents {
  import opened Wrappers

  /** JavaScript truthiness of an optional string field: present and not "". */
  predicate Truthy(o: Option<string>) {
    o.Some? && o.value != ""
  }

  /** The JavaScript expression `a || b` on two optional string fields. */
  function Or(a: Option<string>, b: Option<string>): (r: Option<string>)
    ensures Truthy(r) <==> Truthy(a) || Truthy(b)
    ensures Truthy(a) ==> r == a
    ensures !Truthy(a) ==> r == b
  {
    if Truthy(a) then a else b
  }

  /** A plan document; `fechaHora` is the scheduled time as an integer. */
  datatype PlanDoc = PlanDoc(
    ownerId: Option<string>,
    uid: Option<string>,
    titulo: Option<string>,
    fechaHora: int,
    ubicacion: string)

  /** A subscription document; its id is the subscriber's user id. */
  datatype Inscrito = Inscrito(userId: string, nombre: Option<string>)

  /** A user profile; only the push token matters here. */
  datatype UserDoc = UserDoc(fcmToken: Option<string>)

  /** The whole document store. */
  datatype Store = Store(
    planes: map<string, PlanDoc>,
    inscritos: map<string, seq<Inscrito>>,
    users: map<string, UserDoc>,
    userPlanes: set<(string, string)>)   // (userId, planId)

  /** The documents of `planes/{planId}/inscritos`, in query order. */
  function Subs(s: Store, planId: string): seq<Inscrito> {
    if planId in s.inscritos then s.inscritos[planId] else []
  }

  function Ids(subs: seq<Inscrito>): set<string> {
    set x | x in subs :: x.userId
  }

  /** `users/{userId}.fcmToken`, absent when the profile is absent. */
  function TokenOf(users: map<string, UserDoc>, userId: string): Option<string> {
    if userId in users then users[userId].fcmToken else None
  }

  predicate HasToken(users: map<string, UserDoc>, userId: string) {
    Truthy(TokenOf(users, userId))
  }

  /**
   * Every subscription has its reverse-index entry and vice versa, and a plan
   * with subscribers exists.
   */
  ghost predicate Consistent(s: Store) {
    && (forall e | e in s.userPlanes :: e.0 in Ids(Subs(s, e.1)))
    && (forall p, x | p in s.inscritos && x in s.inscritos[p] :: (x.userId, p) in s.userPlanes)
    && (forall p | p in s.inscritos && s.inscritos[p] != [] :: p in s.planes)
  }

  const DefaultTitle := "tu plan"

  datatype PlanDetails = PlanDetails(creatorId: Option<string>, planTitulo: string)

  /**
   * The creator is `ownerId` when truthy, else the legacy `uid`; the title is
   * `titulo` when truthy, else a fixed default. The title is never empty.
   */
  function ExtractPlanDetails(plan: PlanDoc): (d: PlanDetails)
    ensures Truthy(d.creatorId) <==> Truthy(plan.ownerId) || Truthy(plan.uid)
    ensures Truthy(plan.ownerId) ==> d.creatorId == plan.ownerId
    ensures !Truthy(plan.ownerId) ==> d.creatorId == plan.uid
    ensures Truthy(plan.titulo) ==> d.planTitulo == plan.titulo.value
    ensures !Truthy(plan.titulo) ==> d.planTitulo == DefaultTitle
    ensures d.planTitulo != ""
  {
    PlanDetails(Or(plan.ownerId, plan.uid), if Truthy(plan.titulo) then plan.titulo.value else DefaultTitle)
  }
}
