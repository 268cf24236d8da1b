/** Exactly when the password of an adopted DBInstance is lost: over any run, and in
    every way a run can go on. */
module Overwriting {
  import opened Wrappers
  import opened Store
  import opened Database
  import opened World
  import opened Protocol
  import opened Runs

  /** P held in every state from the end of q on. */
  ghost predicate Throughout(q: Run, r: Run, p: World -> bool)
    requires Extends(q, r)
  {
    p(Now(r)) && (q != r ==> Throughout(q, r.before, p))
  }

  /** In the last step, the connection with the name of k wrote another password into
      the secret of k, or its secret went with the connection. */
  ghost predicate Overwrites(r: Run, k: Key)
    requires r.Then?
  {
    Replaces(Now(r.before), r.who, r.change, k) && Lost(r, k)
  }

  ghost predicate OverwrittenSince(q: Run, r: Run, k: Key)
    requires Extends(q, r)
  {
    q != r && (OverwrittenSince(q, r.before, k) || Overwrites(r, k))
  }

  lemma HandedThroughout(q: Run, r: Run, k: Key)
    requires Extends(q, r) && Throughout(q, r, (w: World) => HandedOff(w, k))
    ensures HandedOff(Now(r), k) && (q != r ==> HandedOff(Now(r.before), k))
  {
  }

  lemma AgreesAtEnd(q: Run, r: Run, k: Key)
    requires Extends(q, r) && Throughout(q, r, (w: World) => k in w.dbs && ReferenceAgrees(w, k))
    ensures k in Now(r).dbs && ReferenceAgrees(Now(r), k)
  {
  }

  lemma StaleStep(r: Run, k: Key)
    requires Legal(r) && r.Then? && k !in Now(r).contested
    requires HandedOff(Now(r.before), k) && ReferenceAgrees(Now(r.before), k) && HandedOff(Now(r), k)
    ensures ReferenceAgrees(Now(r), k) <==> !Overwrites(r, k)
  {
    hide ReferenceAgrees, Allowed, Apply, Replaces, Loses, BindingsOwned;
    var w, w' := Now(r.before), Now(r);
    Reached(r.before, History);
    ApplyTouches(w, r.change);
    AgreesUnlessLost(w, r.who, r.change, w', k);
    if Lost(r, k) {
      SecretsMay(w, r.who, r.change);
      ReplacedByConnection(w, r.who, r.change, w', k);
    }
  }

  lemma SecretsMay(w: World, who: Actor, c: Change)
    requires Allowed(w, who, c)
    ensures c.SecretTo? ==> SecretMay(w, who, c.k, c.data)
  {
  }

  /** A DBInstance that refers to the password AWS has goes on to do so in every state
      if and only if no connection of its name overwrites it. */
  lemma {:induction false} StaleIffOverwritten(q: Run, r: Run, k: Key)
    requires Legal(r) && Extends(q, r) && k !in Now(r).contested
    requires HandedOff(Now(q), k) && ReferenceAgrees(Now(q), k)
    requires Throughout(q, r, (w: World) => HandedOff(w, k))
    ensures Throughout(q, r, (w: World) => k in w.dbs && ReferenceAgrees(w, k)) <==> !OverwrittenSince(q, r, k)
  {
    hide ReferenceAgrees, Allowed, Apply, Overwrites;
    if q != r {
      ApplyTouches(Now(r.before), r.change);
      HandedThroughout(q, r, k);
      StaleIffOverwritten(q, r.before, k);
      if !OverwrittenSince(q, r.before, k) {
        AgreesAtEnd(q, r.before, k);
        StaleStep(r, k);
      }
    }
  }

  /** The secret of k goes on to hold the password it has, whatever happens. */
  ghost predicate KeptForGood(q: Run, k: Key)
    requires HasPassword(Now(q), CredentialOf(k))
  {
    forall r: Run :: Legal(r) && Extends(q, r) ==>
      HasPassword(Now(r), CredentialOf(k)) && PasswordAt(Now(r), CredentialOf(k)) == PasswordAt(Now(q), CredentialOf(k))
  }

  lemma {:induction false} HeldStays(q: Run, r: Run, k: Key)
    requires Legal(r) && Extends(q, r) && HasPassword(Now(q), CredentialOf(k)) && !SecretFree(Now(q), k)
    requires k in Now(q).everAdopted
    ensures HasPassword(Now(r), CredentialOf(k))
            && PasswordAt(Now(r), CredentialOf(k)) == PasswordAt(Now(q), CredentialOf(k))
    ensures !SecretFree(Now(r), k) && k in Now(r).everAdopted
  {
    if q != r {
      HeldStays(q, r.before, k);
      HeldStep(r, k);
    }
  }

  lemma HeldStep(r: Run, k: Key)
    requires Legal(r) && r.Then? && k in Now(r.before).everAdopted
    requires HasPassword(Now(r.before), CredentialOf(k)) && !SecretFree(Now(r.before), k)
    ensures HasPassword(Now(r), CredentialOf(k))
    ensures PasswordAt(Now(r), CredentialOf(k)) == PasswordAt(Now(r.before), CredentialOf(k))
    ensures !SecretFree(Now(r), k) && k in Now(r).everAdopted
  {
    hide Allowed, Apply;
    var w := Now(r.before);
    Reached(r.before, History);
    ApplyTouches(w, r.change);
    SecretsMay(w, r.who, r.change);
    NobodyMay(w, r.who, k);
    assert Now(r).secrets == w.secrets || (r.change.SecretTo? && r.change.k != CredentialOf(k));
  }

  /** Where somebody else controls the secret, nobody may write it. */
  lemma NobodyMay(w: World, who: Actor, k: Key)
    requires BindingsOwned(w) && k in w.everAdopted && HasPassword(w, CredentialOf(k)) && !SecretFree(w, k)
    ensures forall data: Option<Data> :: !SecretMay(w, who, CredentialOf(k), data)
  {
    assert KeptForAdopted(w, CredentialOf(k));
    if BoundAt(w.secrets, CredentialOf(k)) {
      CredentialKeyInjective(k, w.secrets[CredentialOf(k)].it.controller.value.k);
    }
    if who.ConnectionWorker? && CredentialOf(who.x) == CredentialOf(k) { CredentialKeyInjective(k, who.x); }
  }

  /** Where a connection may write, a run goes on in which it does. */
  lemma FreeIsOverwritten(q: Run, k: Key) returns (r: Run)
    requires Legal(q) && HasPassword(Now(q), CredentialOf(k)) && SecretFree(Now(q), k)
    ensures Legal(r) && Extends(q, r) && HasPassword(Now(r), CredentialOf(k))
    ensures PasswordAt(Now(r), CredentialOf(k)) != PasswordAt(Now(q), CredentialOf(k))
  {
    hide SecretFree, Apply;
    r := Connected(q, k);
    SecretFreeSame(Now(q), Now(r), k);
    var other := PasswordAt(Now(q), CredentialOf(k)) + "x";
    var bound := SecretTo(CredentialOf(k), Some(Data(Some(ByConnection(k)), map[PasswordEntry() := other])));
    Binds(Now(r), k, other);
    r := Then(r, ConnectionWorker(k), bound);
  }

  lemma SecretFreeSame(w: World, w': World, k: Key)
    requires w'.secrets == w.secrets && SecretFree(w, k)
    ensures SecretFree(w', k)
  {
  }

  /** A run goes on in which there is a connection of this name. */
  lemma Connected(q: Run, k: Key) returns (r: Run)
    requires Legal(q)
    ensures Legal(r) && Extends(q, r) && k in Now(r).everConnected && Now(r).secrets == Now(q).secrets
  {
    r := q;
    if k in Now(q).connections {
      Reached(q, History);
    } else {
      var created := ConnectionTo(k, Some(Connection(k, "", ConnectionStatus([], None, None))));
      ApplyTouches(Now(q), created);
      r := Then(q, Outside, created);
    }
  }

  lemma Binds(w: World, k: Key, password: string)
    requires k in w.everConnected && SecretFree(w, k)
    ensures var c := SecretTo(CredentialOf(k), Some(Data(Some(ByConnection(k)), map[PasswordEntry() := password])));
      && Allowed(w, ConnectionWorker(k), c)
      && HasPassword(Apply(w, c), CredentialOf(k)) && PasswordAt(Apply(w, c), CredentialOf(k)) == password
  {
    ApplyTouches(w, SecretTo(CredentialOf(k), Some(Data(Some(ByConnection(k)), map[PasswordEntry() := password]))));
  }

  /** The password of a DBInstance is safe for good if and only if somebody else than a
      connection of its name controls the secret: where connections are refused. */
  lemma KeptForGoodIffHeld(q: Run, k: Key)
    requires Legal(q) && k in Now(q).everAdopted && HasPassword(Now(q), CredentialOf(k))
    ensures KeptForGood(q, k) <==> !SecretFree(Now(q), k)
  {
    if SecretFree(Now(q), k) {
      var r := FreeIsOverwritten(q, k);
    } else {
      forall r: Run | Legal(r) && Extends(q, r)
        ensures HasPassword(Now(r), CredentialOf(k))
                && PasswordAt(Now(r), CredentialOf(k)) == PasswordAt(Now(q), CredentialOf(k))
      {
        HeldStays(q, r, k);
      }
    }
  }
}
