/** The issuer and verifier directories and the issuer object that works on them, proved against the journal
    and projection steps of the protocol. */
module IssuerKeyFiles {
  import opened Basics
  import opened Texts
  import opened IssuerJournal

  /** A public key; its id is a hash of its bytes. */
  datatype PublicKey = PublicKey(bytes: string, id: KeyId)

  class IssuerRoot {
    const contentKey: string
    const bindings: Bindings
    var keys: map<KeyId, PublicKey>
    var active: PublicKey
    var journal: Journal

    constructor (content: string, bound: Bindings, first: PublicKey)
      ensures contentKey == content && bindings == bound
      ensures keys == map[first.id := first] && active == first && journal == map[]
    {
      contentKey, bindings, keys, active, journal := content, bound, map[first.id := first], first, map[];
    }
  }

  /** The verifier's directory; `others` are the files in it that do not belong there. */
  class VerifierRoot {
    const others: set<string>
    var contentKey: Option<string>
    var bindings: Option<Bindings>
    var published: map<KeyId, PublicKey>
    var trusted: set<KeyId>
    var active: Option<KeyId>

    constructor ()
      ensures others == {} && contentKey == None && bindings == None
      ensures published == map[] && trusted == {} && active == None
    {
      others, contentKey, bindings, published, trusted, active := {}, None, None, map[], {}, None;
    }

    /** What `_load_projection` asks of the files, once there are any. */
    predicate Loadable()
      reads this
    {
      && others == {} && contentKey.Some? && bindings.Some?
      && active.Some? && active.value in trusted
      && forall k | k in trusted :: k in published && published[k].id == k
    }

    /** The first conflict between these files and an issuer, in the order of the checks. */
    ghost function Conflict(content: string, bound: Bindings, key: PublicKey): Option<Refusal>
      reads this
    {
      if others != {} then Some(ForeignFiles)
      else if contentKey.Some? && contentKey.value != content then Some(ContentKeyConflict)
      else if bindings.Some? && bindings.value != bound then Some(BindingsConflict)
      else if key.id in published && published[key.id] != key then Some(PublicKeyConflict)
      else None
    }

    /** Nothing has been projected yet. */
    predicate Untouched()
      reads this
    {
      others == {} && published == map[] && trusted == {} && active == None
    }
  }

  datatype Refusal = ForeignFiles | ContentKeyConflict | BindingsConflict | PublicKeyConflict

  ghost function DiskOf(root: IssuerRoot, verifier: VerifierRoot): Disk
    reads root, verifier
  {
    Disk(true, root.keys.Keys, root.active.id, root.journal, verifier.published.Keys, verifier.trusted)
  }

  /** A rotation nothing interrupts. */
  function Rotation(k: KeyId): seq<Step> {
    [Rotate(k), Continue, Continue, Continue]
  }

  /** A rotation whose new key the verifier's files refuse. */
  function RefusedRotation(k: KeyId): seq<Step> {
    [Rotate(k), Continue, Refuse]
  }

  class IssuerKeys {
    const root: IssuerRoot
    const publicKey: PublicKey

    /** Loads whichever key is active now. */
    constructor (issuer: IssuerRoot)
      ensures root == issuer && publicKey == issuer.active
    {
      root, publicKey := issuer, issuer.active;
    }

    /** `issue`: look the identity up first; only a new one is signed and entered. */
    method Issue(m: Message, now: Time) returns (r: Issued)
      modifies root`journal
      ensures r == Answer(old(root.journal), publicKey.id, m, now)
      ensures root.journal == Entered(old(root.journal), publicKey.id, m, now)
      ensures forall id | id in old(root.journal) :: id in root.journal && root.journal[id] == old(root.journal)[id]
    {
      if Blank(m.id) {
        return Denied(EventIdUnavailable);
      }
      var identifier, payload := IdentityOf(m.bindings, m.id), Payload(m.bindings, m.text);
      if identifier in root.journal {
        var row := root.journal[identifier];
        if row.payload != payload {
          return Denied(IdentityConflict);
        }
        return Granted(row.envelope);
      }
      var content := Unsigned(identifier, publicKey.id, m.bindings, now, now + TTL, m.text);
      var envelope := Envelope(content, Signature(publicKey.id, content));
      root.journal := root.journal[identifier := Row(envelope, payload)];
      return Granted(envelope);
    }

    /** `project_verifier_material`: it is refused exactly on a conflict, which it leaves as it is, so that it is
        refused again; whom the verifier trusts changes last, and only when nothing is in conflict. The public
        key is written before its id is trusted, so the verifier can load what it finds. */
    method ProjectVerifierMaterial(verifier: VerifierRoot) returns (refused: Option<Refusal>)
      modifies verifier
      ensures refused == old(verifier.Conflict(root.contentKey, root.bindings, publicKey))
      ensures refused == verifier.Conflict(root.contentKey, root.bindings, publicKey)
      ensures refused.Some? ==>
                && verifier.trusted == old(verifier.trusted) && verifier.active == old(verifier.active)
                && verifier.published == old(verifier.published)
                && verifier.contentKey == (if refused == Some(ForeignFiles) || old(verifier.contentKey).Some?
                                           then old(verifier.contentKey) else Some(root.contentKey))
                && verifier.bindings == (if refused in {Some(ForeignFiles), Some(ContentKeyConflict)}
                                            || old(verifier.bindings).Some?
                                         then old(verifier.bindings) else Some(root.bindings))
      ensures refused.None? ==>
                && verifier.contentKey == Some(root.contentKey) && verifier.bindings == Some(root.bindings)
                && verifier.published == old(verifier.published)[publicKey.id := publicKey]
                && verifier.trusted == old(verifier.trusted) + {publicKey.id} && verifier.active == Some(publicKey.id)
      ensures refused.None? && old(verifier.Untouched() || verifier.Loadable()) ==>
                verifier.Loadable()
    {
      if verifier.others != {} {
        return Some(ForeignFiles);
      }
      if verifier.contentKey.Some? {
        if verifier.contentKey.value != root.contentKey {
          return Some(ContentKeyConflict);
        }
      } else {
        verifier.contentKey := Some(root.contentKey);
      }
      if verifier.bindings.Some? {
        if verifier.bindings.value != root.bindings {
          return Some(BindingsConflict);
        }
      } else {
        verifier.bindings := Some(root.bindings);
      }
      if publicKey.id in verifier.published {
        if verifier.published[publicKey.id] != publicKey {
          return Some(PublicKeyConflict);
        }
      } else {
        verifier.published := verifier.published[publicKey.id := publicKey];
      }
      var trusted := verifier.trusted;
      if publicKey.id !in trusted {
        trusted := trusted + {publicKey.id};
      }
      verifier.trusted, verifier.active := trusted, Some(publicKey.id);
      return None;
    }

    /** `rotate_signing_key`, undisturbed: the four writes of the protocol's rotation, one after another; or, when
        the projection is refused, its first two, with the new key active and not trusted. */
    method RotateSigningKey(verifier: VerifierRoot, drawn: PublicKey)
      returns (rotated: IssuerKeys, refused: Option<Refusal>)
      requires drawn.id !in root.keys
      modifies root, verifier
      ensures rotated.root == root && rotated.publicKey == drawn
      ensures root.journal == old(root.journal)
      ensures root.keys == old(root.keys)[drawn.id := drawn] && root.active == drawn
      ensures refused == old(verifier.Conflict(root.contentKey, root.bindings, drawn))
      ensures verifier.published == if refused.None? then old(verifier.published)[drawn.id := drawn]
                                    else old(verifier.published)
      ensures verifier.active == if refused.None? then Some(drawn.id) else old(verifier.active)
      ensures forall live: set<KeyId>, loaded: set<KeyId> | live != {} ::
                var before := Site(old(DiskOf(root, verifier)), Idle, live, loaded);
                if refused.None? then
                  && Valid(before, Rotation(drawn.id))
                  && Run(before, Rotation(drawn.id)) == Site(DiskOf(root, verifier), Idle, live + {drawn.id}, loaded)
                else
                  && Valid(before, RefusedRotation(drawn.id))
                  && Run(before, RefusedRotation(drawn.id)) == Site(DiskOf(root, verifier), Idle, live, loaded)
    {
      ghost var before := DiskOf(root, verifier);
      root.keys := root.keys[drawn.id := drawn];
      root.active := drawn;
      rotated := new IssuerKeys(root);
      refused := rotated.ProjectVerifierMaterial(verifier);
      ghost var after := DiskOf(root, verifier);
      assert root.keys.Keys == before.keys + {drawn.id};
      assert refused.None? ==> verifier.published.Keys == before.published + {drawn.id};
      forall live: set<KeyId>, loaded: set<KeyId> | live != {}
        ensures var s := Site(before, Idle, live, loaded);
                if refused.None? then
                  Valid(s, Rotation(drawn.id)) && Run(s, Rotation(drawn.id)) == Site(after, Idle, live + {drawn.id}, loaded)
                else
                  Valid(s, RefusedRotation(drawn.id)) && Run(s, RefusedRotation(drawn.id)) == Site(after, Idle, live, loaded)
      {
        WholeRotation(Site(before, Idle, live, loaded), drawn.id);
      }
    }
  }

  lemma WholeRotation(s: Site, k: KeyId)
    requires s.disk.started && s.task.Idle? && s.live != {} && k !in s.disk.keys
    ensures Valid(s, Rotation(k)) && Valid(s, RefusedRotation(k))
    ensures Run(s, Rotation(k))
            == Site(s.disk.(keys := s.disk.keys + {k}, active := k, published := s.disk.published + {k},
                            trusted := s.disk.trusted + {k}), Idle, s.live + {k}, s.loaded)
    ensures Run(s, RefusedRotation(k)) == Site(s.disk.(keys := s.disk.keys + {k}, active := k), Idle, s.live, s.loaded)
  {
    var steps, short := Rotation(k), RefusedRotation(k);
    var s1 := Next(s, Rotate(k));
    var s2 := Next(s1, Continue);
    assert steps[1..] == [Continue, Continue, Continue] && steps[1..][1..] == [Continue, Continue];
    TwoSteps(s2, Continue, Continue);
    assert Run(s1, steps[1..]) == Run(s2, [Continue, Continue]);
    assert short[1..] == [Continue, Refuse];
    TwoSteps(s1, Continue, Refuse);
  }
}
