/** The filter of dossiers with a kind against the one without: on which conversations they differ. */
module DossierBranches {
  import opened Options
  import opened Ids
  import opened Dossier
  import opened DossierService

  /** The filter asks for what the row has and the dossier does not show: a responsible person
      who is no member, or, with a kind only, a mentorship. */
  predicate Hides(f: Filter, p: Project) {
    (f.responsible.Some? && !p.responsibleInOrg) || (f.mentorshipOnly && !p.mentorship)
  }

  /** The filter asks for the status that a dossier without one shows. */
  predicate ShowsDefault(f: Filter, p: Project) {
    f.status == Some("TODO") && p.status.None?
  }

  /** When a row passes and what is shown of it does not, and the other way around. */
  lemma RowAgainstDossier(f: Filter, p: Project)
    ensures Where(f, p) ==> (Passes(f, ToDetail(p)) <==> !Hides(f, p))
    ensures Passes(f, ToDetail(p)) ==> (Where(f, p) <==> !ShowsDefault(f, p))
  {
  }

  ghost predicate OlderFound(db: Db, org: OrgId, f: Filter, cid: ConvId, q: ProjectId) {
    exists p :: LinkedTo(db, org, cid, p) && p != q && Where(f, db.projects[p])
  }

  /** The conversation is gone and still linked to a row that passes; or its dossier does not
      pass, but an older link's row does; or its dossier's row passes on what it does not show. */
  ghost predicate FoundTooMuch(db: Db, org: OrgId, f: Filter, cid: ConvId) {
    if !InOrg(db, org, cid) then FoundByLink(db, org, f, cid)
    else exists q :: NewestLink(db, org, cid, q)
                     && ((OlderFound(db, org, f, cid, q) && !Passes(f, ToDetail(db.projects[q])))
                         || (Where(f, db.projects[q]) && Hides(f, db.projects[q])))
  }

  /** The conversation has its dossier by the JID of its group only; or that dossier passes on
      the status it shows for want of one, and no older link's row passes. */
  ghost predicate Missed(db: Db, org: OrgId, f: Filter, cid: ConvId) {
    && InOrg(db, org, cid)
    && (if !Linked(db, org, cid) then
          GroupJid(db, cid).Some?
          && exists q :: NewestOfJid(db, org, GroupJid(db, cid).value, q) && Passes(f, ToDetail(db.projects[q]))
        else
          exists q :: NewestLink(db, org, cid, q) && Passes(f, ToDetail(db.projects[q])) && ShowsDefault(f, db.projects[q])
                      && !OlderFound(db, org, f, cid, q))
  }

  lemma SomeNewest(db: Db, org: OrgId, cid: ConvId) returns (q: ProjectId)
    requires Linked(db, org, cid)
    ensures NewestLink(db, org, cid, q)
  {
    var times := map p | p in db.projects && LinkedTo(db, org, cid, p) :: db.links[Link(p, cid)];
    var p :| LinkedTo(db, org, cid, p);
    assert p in times;
    q := SomeGreatest(times, times.Keys);
    forall x | LinkedTo(db, org, cid, x) ensures db.links[Link(x, cid)] <= db.links[Link(q, cid)] {
      assert x in times;
    }
  }

  /** The dossier of a linked conversation decides, alone, what the branch with a kind returns. */
  lemma NewestDecides(db: Db, org: OrgId, f: Filter, cid: ConvId, q: ProjectId)
    requires InOrg(db, org, cid) && DistinctTimes(db) && NewestLink(db, org, cid, q)
    ensures Matches(db, org, f, cid) <==> Passes(f, ToDetail(db.projects[q]))
    ensures forall p :: NewestLink(db, org, cid, p) <==> p == q
  {
    assert ResolvesTo(db, org, cid, q);
    forall p | ResolvesTo(db, org, cid, p) ensures p == q {
      ResolvesToOne(db, org, cid, p, q);
    }
    forall p | NewestLink(db, org, cid, p) ensures p == q {
      ResolvesToOne(db, org, cid, p, q);
    }
  }

  /** On every conversation, live or not, linked or not: the branch without a kind returns it and
      the other does not, and the other way around. */
  lemma BranchesDifferExactly(db: Db, org: OrgId, f: Filter, cid: ConvId)
    requires DistinctTimes(db)
    ensures FoundByLink(db, org, f, cid) && !Matches(db, org, f, cid) <==> FoundTooMuch(db, org, f, cid)
    ensures Matches(db, org, f, cid) && !FoundByLink(db, org, f, cid) <==> Missed(db, org, f, cid)
  {
    if InOrg(db, org, cid) && Linked(db, org, cid) {
      var q := SomeNewest(db, org, cid);
      NewestDecides(db, org, f, cid, q);
      RowAgainstDossier(f, db.projects[q]);
      assert FoundByLink(db, org, f, cid) <==> Where(f, db.projects[q]) || OlderFound(db, org, f, cid, q);
    } else {
      assert InOrg(db, org, cid) ==> !FoundByLink(db, org, f, cid);
    }
  }

  /** What the two branches ask, by value: of the dossier the conversation resolves to, or of the
      row of any dossier it is linked to. */
  lemma MatchesExactly(db: Db, org: OrgId, f: Filter, cid: ConvId)
    ensures Matches(db, org, f, cid) <==>
              exists p ::
                && ResolvesTo(db, org, cid, p)
                && (!f.mentorshipOnly || db.projects[p].mentorship)
                && (f.hoppe == None || db.projects[p].hoppe == f.hoppe)
                && (f.responsible == None || (db.projects[p].responsibleInOrg && db.projects[p].responsible == f.responsible))
                && (f.status == None || db.projects[p].status == f.status || (f.status == Some("TODO") && db.projects[p].status == None))
  {
  }

  lemma FoundByLinkExactly(db: Db, org: OrgId, f: Filter, cid: ConvId)
    ensures FoundByLink(db, org, f, cid) <==>
              exists p ::
                && Link(p, cid) in db.links && p in db.projects && db.projects[p].live && db.projects[p].org == org
                && (f.hoppe == None || db.projects[p].hoppe == f.hoppe)
                && (f.responsible == None || db.projects[p].responsible == f.responsible)
                && (f.status == None || db.projects[p].status == f.status)
  {
  }

  // ---------------------------------------------------------------- databases on which they differ

  /** A row with a status, of a person who is a member or not. */
  function Row(status: Option<string>, responsible: Option<nat>, member: bool, jid: Option<Jid>, at: int): Project {
    Project(0, true, jid, None, responsible, member, status, false, 0, 0, at)
  }

  /** Conversation 1 is linked to dossier 1, and later to dossier 2. */
  function LinkedTwice(first: Project, second: Project): Db {
    Db(map[1 := Conversation(0, true, false, 0, 0)], [], map[0 := 0], map[1 := first, 2 := second], map[Link(1, 1) := 1, Link(2, 1) := 2])
  }

  /** Conversation 1 is a group's, whose JID dossier 1 names. */
  function NamedOnly(jid: Jid): Db {
    Db(map[1 := Conversation(0, true, true, 0, 0)], [ContactChannel(0, 0, jid)], map[0 := 0],
       map[1 := Row(None, None, false, Some(jid), 1)], map[])
  }

  lemma LinkedTwiceIs(first: Project, second: Project)
    requires first.live && second.live && first.org == second.org == 0 && first.updatedAt != second.updatedAt
    ensures var db := LinkedTwice(first, second);
            && DistinctTimes(db) && InOrg(db, 0, 1) && NewestLink(db, 0, 1, 2)
            && forall p :: LinkedTo(db, 0, 1, p) <==> p == 1 || p == 2
  {
  }

  /** A conversation moved on to a dossier of another status is still found by the old one. */
  lemma OlderLinkIsFound(old': string, new': string)
    requires old' != new'
    ensures var db := LinkedTwice(Row(Some(old'), None, false, None, 1), Row(Some(new'), None, false, None, 2));
            var f := Filter(false, None, None, Some(old'));
            FoundByLink(db, 0, f, 1) && !Matches(db, 0, f, 1)
  {
    var first, second := Row(Some(old'), None, false, None, 1), Row(Some(new'), None, false, None, 2);
    var db, f := LinkedTwice(first, second), Filter(false, None, None, Some(old'));
    LinkedTwiceIs(first, second);
    NewestDecides(db, 0, f, 1, 2);
    assert LinkedTo(db, 0, 1, 1) && Where(f, db.projects[1]);
  }

  /** A conversation is found by a responsible person who has left the organization. */
  lemma FormerMemberIsFound(person: nat)
    ensures var db := LinkedTwice(Row(None, None, false, None, 1), Row(None, Some(person), false, None, 2));
            var f := Filter(false, None, Some(person), None);
            FoundByLink(db, 0, f, 1) && !Matches(db, 0, f, 1)
  {
    var first, second := Row(None, None, false, None, 1), Row(None, Some(person), false, None, 2);
    var db, f := LinkedTwice(first, second), Filter(false, None, Some(person), None);
    LinkedTwiceIs(first, second);
    NewestDecides(db, 0, f, 1, 2);
    assert LinkedTo(db, 0, 1, 2) && Where(f, db.projects[2]);
  }

  /** A dossier without a status shows TODO, and is not found by it. */
  lemma DefaultStatusIsMissed()
    ensures var db := LinkedTwice(Row(None, None, false, None, 1), Row(None, None, false, None, 2));
            var f := Filter(false, None, None, Some("TODO"));
            Matches(db, 0, f, 1) && !FoundByLink(db, 0, f, 1)
  {
    var first, second := Row(None, None, false, None, 1), Row(None, None, false, None, 2);
    var db, f := LinkedTwice(first, second), Filter(false, None, None, Some("TODO"));
    LinkedTwiceIs(first, second);
    NewestDecides(db, 0, f, 1, 2);
  }

  /** A group that nobody has looked up yet is missed, whatever is asked for. */
  lemma UnlinkedGroupIsMissed(jid: Jid)
    requires EndsWith(jid, GROUP_JID_SUFFIX) && jid != ""
    ensures var f := Filter(false, None, None, None);
            Matches(NamedOnly(jid), 0, f, 1) && !FoundByLink(NamedOnly(jid), 0, f, 1)
  {
    var db := NamedOnly(jid);
    assert DeriveGroupJid(db, db.conversations[1]) == Some(jid);
    assert NewestOfJid(db, 0, jid, 1);
    assert ResolvesTo(db, 0, 1, 1);
  }

  /** A conversation that is gone and still linked is found, whatever is asked for. */
  lemma DeletedConversationIsFound()
    ensures var db := LinkedTwice(Row(None, None, false, None, 1), Row(None, None, false, None, 2));
            var gone := db.(conversations := map[1 := Conversation(0, false, false, 0, 0)]);
            var f := Filter(false, None, None, None);
            FoundByLink(gone, 0, f, 1) && !Matches(gone, 0, f, 1)
  {
    var db := LinkedTwice(Row(None, None, false, None, 1), Row(None, None, false, None, 2));
    var gone := db.(conversations := map[1 := Conversation(0, false, false, 0, 0)]);
    assert LinkedTo(gone, 0, 1, 1);
  }
}
