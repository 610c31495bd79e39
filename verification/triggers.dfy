/**
 * The Firestore-triggered handlers that notify through single sends:
 * `sendPlanNotification` and `onPlanUnsubscribed` (to the plan owner),
 * `onPlanUpdated` and `onPlanDeleted` (to every subscriber). Each handler is
 * the list of intents it hands to `sendNotificationToDevice`.
 */
module Triggers {
  import opened Wrappers
  import opened Documents
  import opened Messaging

  // ---------------------------------------------------------------------
  // Owner notifications (subscribe / unsubscribe)
  // ---------------------------------------------------------------------

  /** `nombre || 'Un usuario'` */
  function SubscriberName(nombre: Option<string>): (n: string)
    ensures Truthy(nombre) ==> n == nombre.value
    ensures !Truthy(nombre) ==> n == "Un usuario"
    ensures n != ""
  {
    if Truthy(nombre) then nombre.value else "Un usuario"
  }

  /** The plan exists, names a creator, and the creator's profile has a token. */
  predicate OwnerReachable(s: Store, planId: string) {
    && planId in s.planes
    && Truthy(ExtractPlanDetails(s.planes[planId]).creatorId)
    && HasToken(s.users, ExtractPlanDetails(s.planes[planId]).creatorId.value)
  }

  function OwnerToken(s: Store, planId: string): string
    requires OwnerReachable(s, planId)
  {
    TokenOf(s.users, ExtractPlanDetails(s.planes[planId]).creatorId.value).value
  }

  /** The message text of both owner handlers; `verb` is what the subscriber did. */
  function OwnerBody(name: string, verb: string, planTitulo: string): (b: string)
    ensures |b| == |name| + |verb| + |planTitulo| + 4
    ensures b[..|name|] == name
    ensures b[|name|..|name| + |verb| + 3] == " " + verb + " \""
    ensures b[|b| - |planTitulo| - 1..|b| - 1] == planTitulo
    ensures b[|b| - 1] == '"'
  {
    name + " " + verb + " \"" + planTitulo + "\""
  }

  /** The shared body of both owner handlers. */
  function NotifyOwner(s: Store, planId: string, snap: Inscrito, title: string, verb: string): (r: seq<Intent>)
    ensures |r| <= 1
    ensures |r| == 1 <==> OwnerReachable(s, planId)
    ensures |r| == 1 ==> r[0].token == OwnerToken(s, planId) && r[0].title == title
    ensures |r| == 1 ==> r[0].data == map["planId" := planId, "userId" := snap.userId]
  {
    if planId !in s.planes then []
    else
      var details := ExtractPlanDetails(s.planes[planId]);
      if !Truthy(details.creatorId) then []
      else
        var fcmToken := TokenOf(s.users, details.creatorId.value);
        if !Truthy(fcmToken) then []
        else
          [Intent(fcmToken.value, title,
                  OwnerBody(SubscriberName(snap.nombre), verb, details.planTitulo),
                  map["planId" := planId, "userId" := snap.userId])]
  }

  /** `snap` is the new document `planes/{planId}/inscritos/{snap.userId}`. */
  function SendPlanNotification(s: Store, planId: string, snap: Inscrito): (r: seq<Intent>)
    ensures |r| <= 1
    ensures |r| == 1 <==> OwnerReachable(s, planId)
    ensures |r| == 1 ==>
      && r[0].token == OwnerToken(s, planId)
      && r[0].title == "🟢 Nuevo inscrito"
      && r[0].body == OwnerBody(SubscriberName(snap.nombre), "se ha inscrito en",
                                ExtractPlanDetails(s.planes[planId]).planTitulo)
      && r[0].data == map["planId" := planId, "userId" := snap.userId]
  {
    NotifyOwner(s, planId, snap, "🟢 Nuevo inscrito", "se ha inscrito en")
  }

  /** `snap` is the deleted document `planes/{planId}/inscritos/{snap.userId}`. */
  function OnPlanUnsubscribed(s: Store, planId: string, snap: Inscrito): (r: seq<Intent>)
    ensures |r| <= 1
    ensures |r| == 1 <==> OwnerReachable(s, planId)
    ensures |r| == 1 ==>
      && r[0].token == OwnerToken(s, planId)
      && r[0].title == "🔴 Usuario se dio de baja"
      && r[0].body == OwnerBody(SubscriberName(snap.nombre), "se desinscribió de",
                                ExtractPlanDetails(s.planes[planId]).planTitulo)
      && r[0].data == map["planId" := planId, "userId" := snap.userId]
  {
    NotifyOwner(s, planId, snap, "🔴 Usuario se dio de baja", "se desinscribió de")
  }

  // ---------------------------------------------------------------------
  // Fan-out to subscribers
  // ---------------------------------------------------------------------

  /** The subscribers whose profile holds a truthy token, in query order. */
  function WithToken(subs: seq<Inscrito>, users: map<string, UserDoc>): (r: seq<Inscrito>)
    ensures forall k :: 0 <= k < |r| ==> HasToken(users, r[k].userId)
  {
    if subs == [] then []
    else (if HasToken(users, subs[0].userId) then [subs[0]] else []) + WithToken(subs[1..], users)
  }

  /**
   * The per-subscriber callback of the update and delete handlers, mapped over
   * the subscribers: look up the token, skip the subscriber when it is falsy.
   */
  function FanOut(subs: seq<Inscrito>, users: map<string, UserDoc>,
                  title: string, body: string, data: map<string, string>): (r: seq<Intent>)
    ensures |r| <= |subs|
    ensures forall k :: 0 <= k < |r| ==>
      r[k].token != "" && r[k].title == title && r[k].body == body && r[k].data == data
  {
    if subs == [] then []
    else
      var fcmToken := TokenOf(users, subs[0].userId);
      (if Truthy(fcmToken) then [Intent(fcmToken.value, title, body, data)] else [])
        + FanOut(subs[1..], users, title, body, data)
  }

  /** Exactly one intent per subscriber with a token, in subscriber order. */
  lemma {:induction false} FanOutOnePerSubscriber(subs: seq<Inscrito>, users: map<string, UserDoc>,
                                                  title: string, body: string, data: map<string, string>)
    ensures |FanOut(subs, users, title, body, data)| == |WithToken(subs, users)|
    ensures forall k :: 0 <= k < |WithToken(subs, users)| ==>
      FanOut(subs, users, title, body, data)[k]
        == Intent(TokenOf(users, WithToken(subs, users)[k].userId).value, title, body, data)
  {
    if subs != [] {
      FanOutOnePerSubscriber(subs[1..], users, title, body, data);
    }
  }

  /** Every subscriber with a token receives the intent, and only they do. */
  lemma FanOutRecipients(subs: seq<Inscrito>, users: map<string, UserDoc>,
                         title: string, body: string, data: map<string, string>)
    ensures forall x :: x in subs && HasToken(users, x.userId) ==>
      Intent(TokenOf(users, x.userId).value, title, body, data) in FanOut(subs, users, title, body, data)
    ensures forall i :: i in FanOut(subs, users, title, body, data) ==>
      exists x :: x in subs && TokenOf(users, x.userId) == Some(i.token)
  {
    WithTokenMembers(subs, users);
    FanOutOnePerSubscriber(subs, users, title, body, data);
    var r := FanOut(subs, users, title, body, data);
    var w := WithToken(subs, users);
    forall x | x in subs && HasToken(users, x.userId)
      ensures Intent(TokenOf(users, x.userId).value, title, body, data) in r
    {
      var k :| 0 <= k < |w| && w[k] == x;
      assert r[k] == Intent(TokenOf(users, x.userId).value, title, body, data);
    }
    forall i | i in r ensures exists x :: x in subs && TokenOf(users, x.userId) == Some(i.token) {
      var k :| 0 <= k < |r| && r[k] == i;
      assert w[k] in subs;
    }
  }

  lemma {:induction false} WithTokenMembers(subs: seq<Inscrito>, users: map<string, UserDoc>)
    ensures forall x :: x in WithToken(subs, users) <==> x in subs && HasToken(users, x.userId)
  {
    if subs != [] {
      WithTokenMembers(subs[1..], users);
    }
  }

  /** The fan-out over a concatenation is the concatenation of the fan-outs. */
  lemma {:induction false} FanOutAppend(a: seq<Inscrito>, b: seq<Inscrito>, users: map<string, UserDoc>,
                                        title: string, body: string, data: map<string, string>)
    ensures FanOut(a + b, users, title, body, data)
         == FanOut(a, users, title, body, data) + FanOut(b, users, title, body, data)
  {
    if a == [] {
      assert a + b == b;
    } else {
      assert (a + b)[1..] == a[1..] + b;
      FanOutAppend(a[1..], b, users, title, body, data);
    }
  }

  /** A subscriber without a token is skipped and the rest are still notified. */
  lemma FanOutSkipsTokenless(a: seq<Inscrito>, x: Inscrito, b: seq<Inscrito>, users: map<string, UserDoc>,
                             title: string, body: string, data: map<string, string>)
    requires !HasToken(users, x.userId)
    ensures FanOut(a + [x] + b, users, title, body, data)
         == FanOut(a, users, title, body, data) + FanOut(b, users, title, body, data)
  {
    var fa := FanOut(a, users, title, body, data);
    var fb := FanOut(b, users, title, body, data);
    FanOutAppend(a + [x], b, users, title, body, data);
    FanOutAppend(a, [x], users, title, body, data);
    assert [x][1..] == [];
    assert FanOut([x], users, title, body, data) == [];
    assert fa + [] == fa;
  }

  // ---------------------------------------------------------------------
  // onPlanUpdated: the change list
  // ---------------------------------------------------------------------

  /** The three watched fields, in the order the handler checks them. */
  datatype Field = FechaHora | Ubicacion | Titulo

  const Watched: seq<Field> := [FechaHora, Ubicacion, Titulo]

  function Rank(f: Field): nat {
    match f
    case FechaHora => 0
    case Ubicacion => 1
    case Titulo => 2
  }

  function Label(f: Field): string {
    match f
    case FechaHora => "fecha u hora"
    case Ubicacion => "ubicación"
    case Titulo => "título"
  }

  /** `before.f !== after.f`, with the scheduled time compared by value. */
  predicate Differs(f: Field, before: PlanDoc, after: PlanDoc): (d: bool)
    ensures before == after ==> !d
  {
    match f
    case FechaHora => before.fechaHora != after.fechaHora
    case Ubicacion => before.ubicacion != after.ubicacion
    case Titulo => before.titulo != after.titulo
  }

  function ChangedIn(fs: seq<Field>, before: PlanDoc, after: PlanDoc): (r: seq<Field>)
    ensures forall f :: f in r <==> f in fs && Differs(f, before, after)
  {
    if fs == [] then []
    else (if Differs(fs[0], before, after) then [fs[0]] else []) + ChangedIn(fs[1..], before, after)
  }

  function ChangedFields(before: PlanDoc, after: PlanDoc): seq<Field> {
    ChangedIn(Watched, before, after)
  }

  function Labels(fs: seq<Field>): (ls: seq<string>)
    ensures |ls| == |fs|
    ensures forall k :: 0 <= k < |fs| ==> ls[k] == Label(fs[k])
  {
    if fs == [] then [] else [Label(fs[0])] + Labels(fs[1..])
  }

  /** The `cambios` list the handler builds. */
  function ChangeList(before: PlanDoc, after: PlanDoc): seq<string> {
    Labels(ChangedFields(before, after))
  }

  /** Lines 122-125 of the handler: three guarded pushes onto `cambios`. */
  method DetectChanges(before: PlanDoc, after: PlanDoc) returns (cambios: seq<string>)
    ensures cambios == ChangeList(before, after)
  {
    ghost var a := if Differs(FechaHora, before, after) then [Label(FechaHora)] else [];
    ghost var b := if Differs(Ubicacion, before, after) then [Label(Ubicacion)] else [];
    ghost var c := if Differs(Titulo, before, after) then [Label(Titulo)] else [];
    cambios := [];
    if before.fechaHora != after.fechaHora { cambios := cambios + [Label(FechaHora)]; }
    assert cambios == a;
    if before.ubicacion != after.ubicacion { cambios := cambios + [Label(Ubicacion)]; }
    assert cambios == a + b;
    if before.titulo != after.titulo { cambios := cambios + [Label(Titulo)]; }
    assert cambios == a + b + c;
    ChangeListUnfold(before, after);
  }

  lemma ChangeListUnfold(before: PlanDoc, after: PlanDoc)
    ensures ChangeList(before, after)
         == (if Differs(FechaHora, before, after) then [Label(FechaHora)] else [])
          + (if Differs(Ubicacion, before, after) then [Label(Ubicacion)] else [])
          + (if Differs(Titulo, before, after) then [Label(Titulo)] else [])
  {
    ChangedFieldsUnfold(before, after);
    var fs := ChangedFields(before, after);
    var l := (if Differs(FechaHora, before, after) then [Label(FechaHora)] else [])
           + (if Differs(Ubicacion, before, after) then [Label(Ubicacion)] else [])
           + (if Differs(Titulo, before, after) then [Label(Titulo)] else []);
    assert |l| == |fs|;
    forall k | 0 <= k < |fs| ensures l[k] == Label(fs[k]) {
    }
  }

  lemma ChangedFieldsUnfold(before: PlanDoc, after: PlanDoc)
    ensures ChangedFields(before, after)
         == (if Differs(FechaHora, before, after) then [FechaHora] else [])
          + (if Differs(Ubicacion, before, after) then [Ubicacion] else [])
          + (if Differs(Titulo, before, after) then [Titulo] else [])
  {
    var a := if Differs(FechaHora, before, after) then [FechaHora] else [];
    var b := if Differs(Ubicacion, before, after) then [Ubicacion] else [];
    var c := if Differs(Titulo, before, after) then [Titulo] else [];
    assert Watched[1..] == [Ubicacion, Titulo];
    assert [Ubicacion, Titulo][1..] == [Titulo];
    assert [Titulo][1..] == [];
    assert ChangedIn([Titulo], before, after) == c + [];
    assert ChangedIn([Ubicacion, Titulo], before, after) == b + (c + []);
    assert ChangedIn(Watched, before, after) == a + (b + (c + []));
    assert a + (b + (c + [])) == a + b + c;
  }

  /** Strictly increasing rank: ordered and without repeats. */
  predicate SortedByRank(fs: seq<Field>) {
    forall i, j :: 0 <= i < j < |fs| ==> Rank(fs[i]) < Rank(fs[j])
  }

  /** Filtering keeps the order of a list sorted by rank. */
  lemma {:induction false} ChangedInSorted(fs: seq<Field>, before: PlanDoc, after: PlanDoc)
    requires SortedByRank(fs)
    ensures SortedByRank(ChangedIn(fs, before, after))
  {
    if fs != [] {
      var tail := fs[1..];
      forall i, j | 0 <= i < j < |tail| ensures Rank(tail[i]) < Rank(tail[j]) {
        assert tail[i] == fs[i + 1] && tail[j] == fs[j + 1];
      }
      ChangedInSorted(tail, before, after);
      var rest := ChangedIn(tail, before, after);
      forall g | g in rest ensures Rank(fs[0]) < Rank(g) {
        var j :| 0 <= j < |tail| && tail[j] == g;
        assert fs[j + 1] == g;
      }
      if Differs(fs[0], before, after) {
        var r := [fs[0]] + rest;
        assert r == ChangedIn(fs, before, after);
        forall i, j | 0 <= i < j < |r| ensures Rank(r[i]) < Rank(r[j]) {
          assert r[j] == rest[j - 1] && rest[j - 1] in rest;
          if i > 0 {
            assert r[i] == rest[i - 1];
            assert Rank(rest[i - 1]) < Rank(rest[j - 1]);
          } else {
            assert r[i] == fs[0];
          }
        }
      } else {
        assert rest == ChangedIn(fs, before, after);
      }
    }
  }

  /** A label is in the change list exactly when its field differs. */
  lemma ChangeListMembers(before: PlanDoc, after: PlanDoc)
    ensures forall f :: Label(f) in ChangeList(before, after) <==> Differs(f, before, after)
    ensures ChangeList(before, after) == [] <==> forall f :: !Differs(f, before, after)
  {
    var fs := ChangedFields(before, after);
    var c := ChangeList(before, after);
    forall f ensures Label(f) in c <==> Differs(f, before, after) {
      if Differs(f, before, after) {
        assert f in Watched by { assert Watched[Rank(f)] == f; }
        assert f in fs;
        var k :| 0 <= k < |fs| && fs[k] == f;
        assert c[k] == Label(f);
      }
      if Label(f) in c {
        var k :| 0 <= k < |c| && c[k] == Label(f);
        assert Label(fs[k]) == Label(f);
        assert fs[k] == f;
      }
    }
    if c == [] {
      forall f ensures !Differs(f, before, after) {
        assert Label(f) !in c;
      }
    }
  }

  /**
   * The changed fields follow the fixed order date-time, location, title, so
   * no label repeats.
   */
  lemma ChangeListOrdered(before: PlanDoc, after: PlanDoc)
    ensures SortedByRank(ChangedFields(before, after))
    ensures forall i, j :: 0 <= i < j < |ChangeList(before, after)| ==>
      ChangeList(before, after)[i] != ChangeList(before, after)[j]
  {
    assert SortedByRank(Watched);
    ChangedInSorted(Watched, before, after);
    var fs := ChangedFields(before, after);
    var c := ChangeList(before, after);
    forall i, j | 0 <= i < j < |c| ensures c[i] != c[j] {
      assert Rank(fs[i]) < Rank(fs[j]);
    }
  }

  /** `cambios.join(', ')` */
  function Join(xs: seq<string>, sep: string): (r: string)
    ensures |r| == TotalLength(xs) + (if xs == [] then 0 else (|xs| - 1) * |sep|)
    ensures xs != [] ==> r[..|xs[0]|] == xs[0]
  {
    if xs == [] then ""
    else if |xs| == 1 then xs[0]
    else xs[0] + sep + Join(xs[1..], sep)
  }

  function TotalLength(xs: seq<string>): nat {
    if xs == [] then 0 else |xs[0]| + TotalLength(xs[1..])
  }

  /** The three labels are pairwise distinct. */
  lemma LabelInjective(f: Field, g: Field)
    requires f != g
    ensures Label(f) != Label(g)
  {
    assert Label(f)[0] != Label(g)[0] || |Label(f)| != |Label(g)|;
  }

  function UpdatedBody(planTitulo: string, cambios: seq<string>): (b: string)
    ensures |b| == |planTitulo| + |Join(cambios, ", ")| + 28
    ensures b[..9] == "El plan \""
    ensures b[9..9 + |planTitulo|] == planTitulo
    ensures b[|b| - |Join(cambios, ", ")| - 1..|b| - 1] == Join(cambios, ", ")
    ensures b[|b| - |Join(cambios, ", ")| - 2] == '(' && b[|b| - 1] == ')'
  {
    "El plan \"" + planTitulo + "\" fue modificado (" + Join(cambios, ", ") + ")"
  }

  /** `before` and `after` are the two snapshots of `planes/{planId}`. */
  function OnPlanUpdated(s: Store, planId: string, before: PlanDoc, after: PlanDoc): (r: seq<Intent>)
    ensures ChangeList(before, after) == [] ==> r == []
    ensures ChangeList(before, after) != [] ==> |r| == |WithToken(Subs(s, planId), s.users)|
    ensures forall k :: 0 <= k < |r| ==>
      && r[k].token != ""
      && r[k].title == "✏️ Plan actualizado"
      && r[k].body == UpdatedBody(ExtractPlanDetails(after).planTitulo, ChangeList(before, after))
      && r[k].data == map["planId" := planId]
    ensures forall k :: 0 <= k < |r| ==>
      r[k].token == TokenOf(s.users, WithToken(Subs(s, planId), s.users)[k].userId).value
  {
    var cambios := ChangeList(before, after);
    if cambios == [] then []
    else
      var planTitulo := ExtractPlanDetails(after).planTitulo;
      FanOutOnePerSubscriber(Subs(s, planId), s.users, "✏️ Plan actualizado",
                             UpdatedBody(planTitulo, cambios), map["planId" := planId]);
      FanOut(Subs(s, planId), s.users, "✏️ Plan actualizado",
             UpdatedBody(planTitulo, cambios), map["planId" := planId])
  }

  /** Only a change of date-time, location or title notifies anybody. */
  lemma UpdateNotifiesOnlyOnWatchedChange(s: Store, planId: string, before: PlanDoc, after: PlanDoc)
    ensures OnPlanUpdated(s, planId, before, after) != [] <==>
      (exists f :: Differs(f, before, after)) && WithToken(Subs(s, planId), s.users) != []
  {
    ChangeListMembers(before, after);
  }

  /**
   * A plan "Hiking" at "Park" moved to "Lake", nothing else changed: the
   * change list names only the location.
   */
  lemma HikingMovedToLake(s: Store, t: int, owner: Option<string>)
    ensures var before := PlanDoc(owner, None, Some("Hiking"), t, "Park");
            var after := before.(ubicacion := "Lake");
            && ChangeList(before, after) == ["ubicación"]
            && forall k :: 0 <= k < |OnPlanUpdated(s, "P1", before, after)| ==>
                 OnPlanUpdated(s, "P1", before, after)[k].body == UpdatedBody("Hiking", ["ubicación"])
  {
    var before := PlanDoc(owner, None, Some("Hiking"), t, "Park");
    var after := before.(ubicacion := "Lake");
    ChangedFieldsUnfold(before, after);
    assert ChangedFields(before, after) == [Ubicacion];
  }

  /**
   * The change list as line 123 computes it on real snapshots: `fechaHora` is
   * a Timestamp, each snapshot decodes its own Timestamp object, and `!==`
   * between two objects compares references, so the date-time entry is
   * always pushed.
   */
  function ChangeListAsWritten(before: PlanDoc, after: PlanDoc): (c: seq<string>)
    ensures c != []
  {
    [Label(FechaHora)]
      + (if Differs(Ubicacion, before, after) then [Label(Ubicacion)] else [])
      + (if Differs(Titulo, before, after) then [Label(Titulo)] else [])
  }

  /**
   * As written, an edit that touches none of the three watched fields still
   * notifies, and moving "Hiking" from "Park" to "Lake" reports a date-time
   * change that did not happen.
   */
  lemma UnrelatedEditNotifiesAsWritten(p: PlanDoc, t: int)
    ensures ChangeListAsWritten(p, p) == ["fecha u hora"]
    ensures ChangeList(p, p) == []
    ensures var before := PlanDoc(None, None, Some("Hiking"), t, "Park");
            ChangeListAsWritten(before, before.(ubicacion := "Lake")) == ["fecha u hora", "ubicación"]
  {
    ChangedFieldsUnfold(p, p);
  }

  // ---------------------------------------------------------------------
  // onPlanDeleted
  // ---------------------------------------------------------------------

  /** `deleted` is the last snapshot of `planes/{planId}`. */
  function OnPlanDeleted(s: Store, planId: string, deleted: PlanDoc): (r: seq<Intent>)
    ensures |r| == |WithToken(Subs(s, planId), s.users)|
    ensures forall k :: 0 <= k < |r| ==>
      && r[k].token != ""
      && r[k].title == "🗑️ Plan eliminado"
      && r[k].body == DeletedBody(ExtractPlanDetails(deleted).planTitulo)
      && r[k].data == map["planId" := planId]
    ensures forall k :: 0 <= k < |r| ==>
      r[k].token == TokenOf(s.users, WithToken(Subs(s, planId), s.users)[k].userId).value
  {
    var body := DeletedBody(ExtractPlanDetails(deleted).planTitulo);
    FanOutOnePerSubscriber(Subs(s, planId), s.users, "🗑️ Plan eliminado", body, map["planId" := planId]);
    FanOut(Subs(s, planId), s.users, "🗑️ Plan eliminado", body, map["planId" := planId])
  }

  function DeletedBody(planTitulo: string): (b: string)
    ensures |b| == |planTitulo| + 29
    ensures b[..9] == "El plan \""
    ensures b[9..9 + |planTitulo|] == planTitulo
  {
    "El plan \"" + planTitulo + "\" ha sido eliminado."
  }
}
