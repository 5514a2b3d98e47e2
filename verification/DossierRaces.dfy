/**
 * A lookup reads the dossier of a group by its JID, and writes the link down afterwards. When
 * the dossier is removed in between, the late link may bring it back.
 */
module DossierRaces {
  import opened Options
  import opened Dossier
  import opened DossierService

  // ---------------------------------------------------------------- any number of whole lookups

  /** A lookup with nobody in between: at most the link of a dossier found by JID is new. */
  ghost predicate LooksUp(db: Db, db': Db, org: OrgId, cid: ConvId, now: int) {
    && (forall k | k in db.links :: db.links[k] != now)
    && (db' == db || exists p :: !Linked(db, org, cid) && ResolvesTo(db, org, cid, p) && db' == Adopted(db, cid, p, now))
  }

  ghost predicate SomeLookup(db: Db, db': Db) {
    exists org, cid, now :: LooksUp(db, db', org, cid, now)
  }

  /** Lookups one after the other, for any conversations of any organizations. */
  ghost predicate Lookups(dbs: seq<Db>) {
    dbs != [] && forall i | 0 <= i < |dbs| - 1 :: SomeLookup(dbs[i], dbs[i + 1])
  }

  /** For other organizations an adoption is not there. */
  lemma ForeignAdoption(db: Db, org: OrgId, cid: ConvId, p: ProjectId, now: int, other: ConvId, q: ProjectId)
    requires !IsOpen(db, org, p)
    ensures ResolvesTo(Adopted(db, cid, p, now), org, other, q) <==> ResolvesTo(db, org, other, q)
  {
    var db' := Adopted(db, cid, p, now);
    assert forall c, x :: LinkedTo(db', org, c, x) <==> LinkedTo(db, org, c, x);
    assert GroupJid(db', other) == GroupJid(db, other);
    assert Linked(db', org, other) <==> Linked(db, org, other);
  }

  lemma LookupChangesNothing(db: Db, db': Db, org: OrgId, other: ConvId, q: ProjectId)
    requires DistinctTimes(db) && SomeLookup(db, db')
    ensures DistinctTimes(db') && db'.projects == db.projects && db'.conversations == db.conversations
    ensures ResolvesTo(db', org, other, q) <==> ResolvesTo(db, org, other, q)
  {
    var o, cid, now :| LooksUp(db, db', o, cid, now);
    if db' != db {
      var p :| !Linked(db, o, cid) && ResolvesTo(db, o, cid, p) && db' == Adopted(db, cid, p, now);
      if o == org {
        assert Link(p, cid) !in db.links;
        AdoptionChangesNothing(db, org, cid, p, now, other, q);
      } else {
        ForeignAdoption(db, org, cid, p, now, other, q);
      }
    }
  }

  /** However many lookups run, none changes what any conversation resolves to. */
  lemma {:induction false} LookupsChangeNothing(dbs: seq<Db>, org: OrgId, other: ConvId, q: ProjectId)
    requires Lookups(dbs) && DistinctTimes(dbs[0])
    ensures var last := dbs[|dbs| - 1];
            && DistinctTimes(last) && last.projects == dbs[0].projects && last.conversations == dbs[0].conversations
            && (ResolvesTo(last, org, other, q) <==> ResolvesTo(dbs[0], org, other, q))
  {
    if |dbs| > 1 {
      var n := |dbs| - 1;
      LookupsChangeNothing(dbs[..n], org, other, q);
      LookupChangesNothing(dbs[n - 1], dbs[n], org, other, q);
    }
  }

  /** Nor links a conversation to a dossier it does not resolve to. */
  lemma {:induction false} LookupsLinkNoOther(dbs: seq<Db>, org: OrgId, cid: ConvId, p: ProjectId)
    requires Lookups(dbs) && DistinctTimes(dbs[0]) && InOrg(dbs[0], org, cid)
    requires !ResolvesTo(dbs[0], org, cid, p) && Link(p, cid) !in dbs[0].links
    ensures Link(p, cid) !in dbs[|dbs| - 1].links
  {
    if |dbs| > 1 {
      var n := |dbs| - 1;
      LookupsLinkNoOther(dbs[..n], org, cid, p);
      LookupsChangeNothing(dbs[..n], org, cid, p);
      var o, c, now :| LooksUp(dbs[n - 1], dbs[n], o, c, now);
    }
  }

  // ---------------------------------------------------------------- the late link

  /** Written on any database, the link makes the dossier that of the conversation exactly when
      both are still there, and no newer link was made since it was first written. */
  lemma LateLinkTakesExactly(db: Db, org: OrgId, cid: ConvId, p: ProjectId, now: int)
    requires forall k | k in db.links :: db.links[k] <= now
    ensures ResolvesTo(Adopted(db, cid, p, now), org, cid, p) <==>
              InOrg(db, org, cid) && IsOpen(db, org, p) && (Link(p, cid) in db.links ==> NewestLink(db, org, cid, p))
  {
    var db' := Adopted(db, cid, p, now);
    if IsOpen(db, org, p) {
      assert LinkedTo(db', org, cid, p);
    } else {
      assert !IsOpen(db', org, p);
    }
  }

  /** Something other than the group of `asked` holds on to the dossier. */
  predicate HeldElsewhere(db: Db, org: OrgId, asked: ConvId, p: ProjectId)
    requires p in db.projects
  {
    || db.projects[p].tasks > 0 || db.projects[p].attachments > 0
    || exists k | k in db.links :: k.project == p && k.conv !in Detached(db, org, asked)
  }

  lemma RemovedLivesExactly(db: Db, db': Db, org: OrgId, asked: ConvId, p: ProjectId)
    requires IsOpen(db, org, p) && Removed(db, db', org, asked, p)
    requires GroupJid(db, asked).Some? && db.projects[p].groupJid == GroupJid(db, asked)
    ensures IsOpen(db', org, p) <==> HeldElsewhere(db, org, asked, p)
  {
    assert JidOf(db'.projects[p]).None?;
    if k :| k in db.links && k.project == p && k.conv !in Detached(db, org, asked) {
      assert k in db'.links;
    }
  }

  lemma RemovalKeepsTimes(db: Db, db': Db, org: OrgId, asked: ConvId, p: ProjectId)
    requires DistinctTimes(db) && p in db.projects && Removed(db, db', org, asked, p)
    ensures DistinctTimes(db')
  {
  }

  /** The lookup of `cid` found dossier `p` by the JID of the group. */
  ghost predicate ReadByJid(db: Db, org: OrgId, cid: ConvId, p: ProjectId) {
    !Linked(db, org, cid) && ResolvesTo(db, org, cid, p)
  }

  lemma ReadIsTheGroups(db: Db, org: OrgId, asked: ConvId, cid: ConvId, p: ProjectId)
    requires ChannelsOwned(db) && InOrg(db, org, asked) && ReadByJid(db, org, cid, p) && SameGroup(db, org, asked, cid)
    ensures GroupJid(db, asked).Some? && db.projects[p].groupJid == GroupJid(db, asked)
    ensures cid in Detached(db, org, asked)
  {
    assert GroupJid(db, cid) == GroupJid(db, asked);
    DerivedIsJoined(db, org, cid);
  }

  /**
   * The lookup of `cid` has read `p`; then `p` is removed, for `cid` or another conversation of
   * the group; then any whole lookups run, after which nobody of the group has `p`; then the
   * first lookup writes its link. With that `p` is the dossier of `cid` again exactly when it
   * had tasks, attachments or links outside the group; and of `cid` only.
   */
  lemma RemovedComesBackExactly(db: Db, dbs: seq<Db>, org: OrgId, asked: ConvId, cid: ConvId, p: ProjectId, now: int)
    requires ChannelsOwned(db) && DistinctTimes(db) && InOrg(db, org, asked)
    requires ReadByJid(db, org, cid, p) && SameGroup(db, org, asked, cid)
    requires Lookups(dbs) && Removed(db, dbs[0], org, asked, p)
    requires var last := dbs[|dbs| - 1]; forall k | k in last.links :: last.links[k] <= now
    ensures var last := dbs[|dbs| - 1];
            && (forall other | SameGroup(db, org, asked, other) :: !ResolvesTo(last, org, other, p))
            && (ResolvesTo(Adopted(last, cid, p, now), org, cid, p) <==> HeldElsewhere(db, org, asked, p))
            && (forall other | SameGroup(db, org, asked, other) && other != cid :: !ResolvesTo(Adopted(last, cid, p, now), org, other, p))
  {
    var db', last := dbs[0], dbs[|dbs| - 1];
    RemovalKeepsTimes(db, db', org, asked, p);
    forall other | SameGroup(db, org, asked, other) ensures !ResolvesTo(last, org, other, p) {
      RemovedIsGone(db, db', org, asked, p, other);
      LookupsChangeNothing(dbs, org, other, p);
    }
    ReadIsTheGroups(db, org, asked, cid, p);
    RemovedIsGone(db, db', org, asked, p, cid);
    LookupsChangeNothing(dbs, org, cid, p);
    LookupsLinkNoOther(dbs, org, cid, p);
    RemovedLivesExactly(db, db', org, asked, p);
    LateLinkTakesExactly(last, org, cid, p, now);
    forall other | SameGroup(db, org, asked, other) && other != cid ensures !ResolvesTo(Adopted(last, cid, p, now), org, other, p) {
      NotOfOthers(last, org, cid, p, now, other);
    }
  }

  lemma NotOfOthers(db: Db, org: OrgId, cid: ConvId, p: ProjectId, now: int, other: ConvId)
    requires other != cid && !ResolvesTo(db, org, other, p)
    ensures !ResolvesTo(Adopted(db, cid, p, now), org, other, p)
  {
    var db' := Adopted(db, cid, p, now);
    assert forall x :: LinkedTo(db', org, other, x) <==> LinkedTo(db, org, other, x);
    assert GroupJid(db', other) == GroupJid(db, other);
  }

  // ---------------------------------------------------------------- such a database

  /** One conversation of a group, and a dossier with one task that names the group's JID or not. */
  function OneTask(jid: Jid, named: bool): Db {
    Db(map[1 := Conversation(0, true, true, 0, 0)], [ContactChannel(0, 0, jid)], map[0 := 0],
       map[1 := Project(0, true, if named then Some(jid) else None, None, None, false, None, false, 1, 0, 1)], map[])
  }

  lemma OneTaskIsRead(jid: Jid)
    requires EndsWith(jid, GROUP_JID_SUFFIX) && jid != ""
    ensures var db := OneTask(jid, true); ChannelsOwned(db) && DistinctTimes(db) && InOrg(db, 0, 1) && ReadByJid(db, 0, 1, 1)
  {
    var db := OneTask(jid, true);
    assert DeriveGroupJid(db, db.conversations[1]) == Some(jid);
    assert NewestOfJid(db, 0, jid, 1);
  }

  lemma OneTaskIsRemoved(jid: Jid)
    requires EndsWith(jid, GROUP_JID_SUFFIX) && jid != ""
    ensures Removed(OneTask(jid, true), OneTask(jid, false), 0, 1, 1)
  {
    var db := OneTask(jid, true);
    assert DeriveGroupJid(db, db.conversations[1]) == Some(jid);
    assert !Bare(OneTask(jid, false), 1);
  }

  /** A lookup reads it, a removal runs, the lookup writes its link: the removed dossier is back. */
  lemma RemovedComesBack(jid: Jid, now: int)
    requires EndsWith(jid, GROUP_JID_SUFFIX) && jid != ""
    ensures (
      var db, db' := OneTask(jid, true), OneTask(jid, false);
      && ReadByJid(db, 0, 1, 1) && Removed(db, db', 0, 1, 1)
      && !ResolvesTo(db', 0, 1, 1) && ResolvesTo(Adopted(db', 1, 1, now), 0, 1, 1))
  {
    OneTaskIsRead(jid);
    OneTaskIsRemoved(jid);
    RemovedComesBackExactly(OneTask(jid, true), [OneTask(jid, false)], 0, 1, 1, 1, now);
  }
}
