/** The lookup of one conversation, the filter over all of them, and the removal of a dossier. */
module DossierService {
  import opened Options
  import opened Ids
  import opened Dossier

  /** What a dossier shows of itself. */
  datatype Detail = Detail(hoppe: Option<string>, responsible: Option<nat>, status: string, mentorship: bool)

  function ToDetail(p: Project): Detail {
    Detail(p.hoppe, if p.responsibleInOrg then p.responsible else None,
           if p.status.Some? then p.status.value else "TODO", p.mentorship)
  }

  datatype Filter = Filter(mentorshipOnly: bool, hoppe: Option<string>, responsible: Option<nat>, status: Option<string>)

  predicate Passes(f: Filter, d: Detail) {
    && (f.mentorshipOnly ==> d.mentorship)
    && (f.hoppe.Some? ==> d.hoppe == f.hoppe)
    && (f.responsible.Some? ==> d.responsible == f.responsible)
    && (f.status.Some? ==> d.status == f.status.value)
  }

  /** The dossier of the conversation passes the filter, by the simple lookup. */
  ghost predicate Matches(db: Db, org: OrgId, f: Filter, cid: ConvId) {
    exists p :: ResolvesTo(db, org, cid, p) && Passes(f, ToDetail(db.projects[p]))
  }

  // ---------------------------------------------------------------- the filter without a kind

  /** What the query asks of the row itself: not of what the dossier shows. */
  predicate Where(f: Filter, p: Project) {
    && (f.hoppe.Some? ==> p.hoppe == f.hoppe)
    && (f.responsible.Some? ==> p.responsible == f.responsible)
    && (f.status.Some? ==> p.status == f.status)
  }

  /** Any link counts, not only the newest, and no group is looked up by its JID. */
  ghost predicate FoundByLink(db: Db, org: OrgId, f: Filter, cid: ConvId) {
    exists p :: LinkedTo(db, org, cid, p) && Where(f, db.projects[p])
  }

  /** A dossier the query returns, with the conversations of its links. */
  datatype Listed = Listed(project: ProjectId, convs: seq<ConvId>)

  ghost predicate FoundListed(db: Db, org: OrgId, f: Filter, l: seq<Listed>) {
    && (forall x | x in l :: IsOpen(db, org, x.project) && Where(f, db.projects[x.project]))
    && (forall x, c | x in l :: c in x.convs <==> Link(x.project, c) in db.links)
    && (forall p | IsOpen(db, org, p) && Where(f, db.projects[p]) :: exists x :: x in l && x.project == p)
  }

  /** What the bulk filter takes for granted about the rows. */
  ghost predicate Tidy(db: Db, org: OrgId) {
    DistinctTimes(db) && OneRowPerChannel(db) && GroupJidsOnly(db, org) && ChannelsOwned(db)
  }

  /** `m` has the dossier of every conversation that has one. */
  ghost predicate Resolved(db: Db, org: OrgId, m: map<ConvId, ProjectId>) {
    forall cid, p :: (cid in m && m[cid] == p) <==> ResolvesTo(db, org, cid, p)
  }

  /** The rows of the join that a first-wins loop has taken in so far. */
  ghost predicate Joining(legacy: map<Jid, ProjectId>, groups: seq<Group>, before: map<ConvId, ProjectId>, m: map<ConvId, ProjectId>) {
    && (forall c | c in before :: c in m && m[c] == before[c])
    && (forall g | g in groups && g.jid in legacy :: g.conv in m)
    && (forall c | c in m && c !in before :: exists g :: g in groups && g.conv == c && g.jid in legacy && m[c] == legacy[g.jid])
  }

  /** The maps of the bulk filter agree with the lookup, conversation by conversation. */
  lemma BulkIsLookup(db: Db, org: OrgId, links: seq<Link>, projects: seq<ProjectId>, groups: seq<Group>,
                     linked: map<ConvId, ProjectId>, legacy: map<Jid, ProjectId>, m: map<ConvId, ProjectId>)
    requires Tidy(db, org) && LinksListed(db, org, links) && ProjectsListed(db, org, projects)
    requires FirstLinks(links, linked) && FirstNamed(db, projects, legacy)
    requires GroupsListed(db, org, legacy.Keys, groups) && Joining(legacy, groups, linked, m)
    ensures Resolved(db, org, m)
  {
    forall cid, p ensures (cid in m && m[cid] == p) <==> ResolvesTo(db, org, cid, p) {
      FirstLinkIsNewest(db, org, links, linked, cid);
      if cid in linked {
        LinkedAgrees(db, org, linked, m, cid, p);
      } else {
        LegacyAgrees(db, org, projects, groups, legacy, linked, m, cid, p);
      }
    }
  }

  lemma MatchesThrough(db: Db, org: OrgId, f: Filter, m: map<ConvId, ProjectId>, cid: ConvId)
    requires Resolved(db, org, m)
    ensures Matches(db, org, f, cid) <==> cid in m && m[cid] in db.projects && Passes(f, ToDetail(db.projects[m[cid]]))
  {
  }

  lemma ResolvedInside(db: Db, org: OrgId, links: seq<Link>, projects: seq<ProjectId>, groups: seq<Group>,
                       linked: map<ConvId, ProjectId>, legacy: map<Jid, ProjectId>, m: map<ConvId, ProjectId>)
    requires LinksListed(db, org, links) && ProjectsListed(db, org, projects)
    requires FirstLinks(links, linked) && FirstNamed(db, projects, legacy)
    requires GroupsListed(db, org, legacy.Keys, groups) && Joining(legacy, groups, linked, m)
    ensures forall c | c in m :: InOrg(db, org, c) && m[c] in db.projects
  {
    forall c | c in m ensures InOrg(db, org, c) && m[c] in db.projects {
      FirstLinkIsNewest(db, org, links, linked, c);
      if c !in linked {
        var g :| g in groups && g.conv == c && g.jid in legacy && m[c] == legacy[g.jid];
        FirstNamedIsNewest(db, org, projects, legacy, g.jid);
      }
    }
  }

  lemma LinkedAgrees(db: Db, org: OrgId, linked: map<ConvId, ProjectId>, m: map<ConvId, ProjectId>, cid: ConvId, p: ProjectId)
    requires DistinctTimes(db) && cid in linked && cid in m && m[cid] == linked[cid]
    requires InOrg(db, org, cid) && Linked(db, org, cid) && NewestLink(db, org, cid, linked[cid])
    ensures m[cid] == p <==> ResolvesTo(db, org, cid, p)
  {
  }

  lemma LegacyAgrees(db: Db, org: OrgId, projects: seq<ProjectId>, groups: seq<Group>, legacy: map<Jid, ProjectId>,
                     linked: map<ConvId, ProjectId>, m: map<ConvId, ProjectId>, cid: ConvId, p: ProjectId)
    requires Tidy(db, org) && ProjectsListed(db, org, projects) && FirstNamed(db, projects, legacy)
    requires GroupsListed(db, org, legacy.Keys, groups) && Joining(legacy, groups, linked, m)
    requires cid !in linked && !(InOrg(db, org, cid) && Linked(db, org, cid))
    ensures (cid in m && m[cid] == p) <==> ResolvesTo(db, org, cid, p)
  {
    if ResolvesTo(db, org, cid, p) {
      var jid := GroupJid(db, cid).value;
      FirstNamedIsNewest(db, org, projects, legacy, jid);
      assert Names(db, org, jid, p);
      DerivedIsJoined(db, org, cid);
      assert Group(cid, jid) in groups;
      assert cid in m;
    }
    if cid in m {
      var g :| g in groups && g.conv == cid && g.jid in legacy && m[cid] == legacy[g.jid];
      FirstNamedIsNewest(db, org, projects, legacy, g.jid);
      JoinedIsDerived(db, org, cid, g.jid);
      assert ResolvesTo(db, org, cid, m[cid]);
      if ResolvesTo(db, org, cid, p) {
        ResolvesToOne(db, org, cid, p, m[cid]);
      }
    }
  }

  /** The upsert of an adoption: a link that is there already keeps its time. */
  function Adopted(db: Db, cid: ConvId, p: ProjectId, now: int): Db {
    if Link(p, cid) in db.links then db else db.(links := db.links[Link(p, cid) := now])
  }

  /** A lookup that adopts a dossier named by JID writes the link down, and no later lookup of
      any conversation comes out differently. */
  lemma AdoptionChangesNothing(db: Db, org: OrgId, cid: ConvId, p: ProjectId, now: int, other: ConvId, q: ProjectId)
    requires DistinctTimes(db) && !Linked(db, org, cid) && ResolvesTo(db, org, cid, p)
    ensures ResolvesTo(db.(links := db.links[Link(p, cid) := now]), org, other, q) <==> ResolvesTo(db, org, other, q)
  {
    var db' := db.(links := db.links[Link(p, cid) := now]);
    forall c, x ensures LinkedTo(db', org, c, x) <==> LinkedTo(db, org, c, x) || (c == cid && x == p) {
    }
    assert GroupJid(db', other) == GroupJid(db, other);
    if other == cid {
      assert LinkedTo(db', org, cid, p);
      assert ResolvesTo(db', org, cid, q) <==> q == p;
      if ResolvesTo(db, org, cid, q) {
        ResolvesToOne(db, org, cid, p, q);
      }
    } else {
      assert Linked(db', org, other) <==> Linked(db, org, other) by {
        assert forall x :: LinkedTo(db', org, other, x) <==> LinkedTo(db, org, other, x);
      }
    }
  }

  // ---------------------------------------------------------------- removal

  /** The conversations a removal detaches: all of the group, or just the one. */
  function Detached(db: Db, org: OrgId, cid: ConvId): set<ConvId> {
    if GroupJid(db, cid).Some? then set c | c in db.conversations && Joined(db, org, c, GroupJid(db, cid).value) else {cid}
  }

  /** Nothing holds the dossier any more. */
  predicate Bare(db: Db, p: ProjectId)
    requires p in db.projects
  {
    && JidOf(db.projects[p]).None? && db.projects[p].tasks == 0 && db.projects[p].attachments == 0
    && (forall k | k in db.links :: k.project != p)
  }

  /** `db'` is `db` after dossier `p` was removed for conversation `cid`. */
  ghost predicate Removed(db: Db, db': Db, org: OrgId, cid: ConvId, p: ProjectId)
    requires p in db.projects
  {
    var ids := Detached(db, org, cid);
    var jid := GroupJid(db, cid);
    var own := jid.Some? && db.projects[p].groupJid == jid;
    && db'.conversations == db.conversations && db'.contactChannels == db.contactChannels && db'.channels == db.channels
    && (forall k :: k in db'.links <==> k in db.links && !(k.project == p && k.conv in ids))
    && (forall k | k in db'.links :: db'.links[k] == db.links[k])
    && db'.projects.Keys == db.projects.Keys
    && (forall q | q in db.projects && q != p :: db'.projects[q] == db.projects[q])
    && db'.projects[p] == db.projects[p].(groupJid := if own then None else db.projects[p].groupJid, live := db'.projects[p].live)
    && db'.projects[p].live == !Bare(db', p)
  }

  /** The conversations that stop belonging to the dossier: the one asked for and, if it is a
      group's, all the group's. */
  ghost predicate SameGroup(db: Db, org: OrgId, cid: ConvId, other: ConvId) {
    other == cid || (InOrg(db, org, other) && GroupJid(db, cid).Some? && GroupJid(db, other) == GroupJid(db, cid))
  }

  /** None of them resolves to the removed dossier, whatever else they are linked to. */
  lemma RemovedIsGone(db: Db, db': Db, org: OrgId, cid: ConvId, p: ProjectId, other: ConvId)
    requires ChannelsOwned(db) && InOrg(db, org, cid) && p in db.projects && Removed(db, db', org, cid, p)
    requires SameGroup(db, org, cid, other)
    ensures !ResolvesTo(db', org, other, p)
  {
  }

  /** Other conversations keep the dossier they had, unless it was the removed one. */
  lemma OthersKeepTheirs(db: Db, db': Db, org: OrgId, cid: ConvId, p: ProjectId, other: ConvId, q: ProjectId)
    requires IsOpen(db, org, p) && Removed(db, db', org, cid, p) && q != p && ResolvesTo(db, org, other, q)
    ensures ResolvesTo(db', org, other, q)
  {
    assert GroupJid(db', other) == GroupJid(db, other);
    forall x | LinkedTo(db', org, other, x) ensures LinkedTo(db, org, other, x) {
    }
    if Linked(db, org, other) {
      assert LinkedTo(db', org, other, q);
    } else {
      forall x | Names(db', org, GroupJid(db, other).value, x) ensures Names(db, org, GroupJid(db, other).value, x) {
      }
    }
  }

  // ---------------------------------------------------------------- the service

  datatype Outcome = Found(project: ProjectId) | Nothing | NotFound | Forbidden

  function Elements(convs: seq<ConvId>): set<ConvId> {
    set c | c in convs
  }

  lemma FoundThrough(db: Db, org: OrgId, f: Filter, found: seq<Listed>, cid: ConvId)
    requires FoundListed(db, org, f, found)
    ensures FoundByLink(db, org, f, cid) <==> exists x :: x in found && cid in x.convs
  {
    if FoundByLink(db, org, f, cid) {
      var p :| LinkedTo(db, org, cid, p) && Where(f, db.projects[p]);
      var x :| x in found && x.project == p;
      assert cid in x.convs;
    }
  }

  class ProjectsService {
    var db: Db

    constructor (db: Db)
      ensures this.db == db
    {
      this.db := db;
    }

    /** The first row when they come newest first. */
    static method Newest(at: map<nat, int>) returns (p: Option<nat>)
      ensures p.None? <==> at == map[]
      ensures p.Some? ==> p.value in at && forall q | q in at :: at[q] <= at[p.value]
    {
      if at == map[] {
        return None;
      }
      ghost var greatest := SomeGreatest(at, at.Keys);
      var best :| best in at.Keys && forall q | q in at.Keys :: at[q] <= at[best];
      p := Some(best);
    }

    /** findFirst on the links of a conversation, newest first. */
    method NewestLinkOf(org: OrgId, cid: ConvId, only: Option<ProjectId>) returns (p: Option<ProjectId>)
      ensures p.None? ==> forall q | LinkedTo(db, org, cid, q) :: only.Some? && q != only.value
      ensures p.Some? ==> LinkedTo(db, org, cid, p.value) && (only.Some? ==> p == only)
      ensures p.Some? && only.None? ==> NewestLink(db, org, cid, p.value)
    {
      var rows := map q | q in db.projects && LinkedTo(db, org, cid, q) && (only.Some? ==> q == only.value) :: db.links[Link(q, cid)];
      p := Newest(rows);
      assert forall q :: q in rows <==> LinkedTo(db, org, cid, q) && (only.Some? ==> q == only.value);
    }

    /** findFirst on the dossiers of a JID, last updated first. */
    method NewestNamed(org: OrgId, jid: Jid, only: Option<ProjectId>) returns (p: Option<ProjectId>)
      ensures p.None? ==> forall q | Names(db, org, jid, q) :: only.Some? && q != only.value
      ensures p.Some? ==> Names(db, org, jid, p.value) && (only.Some? ==> p == only)
      ensures p.Some? && only.None? ==> NewestOfJid(db, org, jid, p.value)
    {
      var rows := map q | q in db.projects && Names(db, org, jid, q) && (only.Some? ==> q == only.value) :: db.projects[q].updatedAt;
      p := Newest(rows);
      assert forall q :: q in rows <==> Names(db, org, jid, q) && (only.Some? ==> q == only.value);
    }

    /** What the lookup reads: the dossier, and whether it was found by JID only. */
    method ReadForConversation(org: OrgId, cid: ConvId, access: Option<set<ChannelId>>) returns (r: Outcome, byJid: bool)
      ensures r == NotFound <==> !InOrg(db, org, cid)
      ensures r == Forbidden <==> InOrg(db, org, cid) && access.Some? && db.conversations[cid].channel !in access.value
      ensures r.Found? ==> ResolvesTo(db, org, cid, r.project)
      ensures r.Nothing? ==> forall p :: !ResolvesTo(db, org, cid, p)
      ensures byJid <==> r.Found? && !Linked(db, org, cid)
    {
      byJid := false;
      if !InOrg(db, org, cid) {
        return NotFound, false;
      }
      var c := db.conversations[cid];
      if access.Some? && c.channel !in access.value {
        return Forbidden, false;
      }
      var linked := NewestLinkOf(org, cid, None);
      if linked.Some? {
        return Found(linked.value), false;
      }
      assert !Linked(db, org, cid);
      if c.isGroup {
        var jid := DeriveGroupJid(db, c);
        if jid.Some? {
          var legacy := NewestNamed(org, jid.value, None);
          if legacy.Some? {
            return Found(legacy.value), true;
          }
        }
      }
      r := Nothing;
    }

    /** The link a lookup writes down for a dossier found by JID. */
    method Adopt(cid: ConvId, p: ProjectId, now: int)
      modifies this
      ensures db == Adopted(old(db), cid, p, now)
    {
      if Link(p, cid) !in db.links {
        db := db.(links := db.links[Link(p, cid) := now]);
      }
    }

    /** The simple lookup, with nobody in between its read and its write. */
    method GetForConversation(org: OrgId, cid: ConvId, access: Option<set<ChannelId>>, now: int) returns (r: Outcome)
      modifies this
      ensures r == NotFound <==> !InOrg(old(db), org, cid)
      ensures (r == Forbidden <==>
                InOrg(old(db), org, cid) && access.Some? && old(db).conversations[cid].channel !in access.value)
      ensures r.Found? ==> ResolvesTo(old(db), org, cid, r.project)
      ensures r.Nothing? ==> forall p :: !ResolvesTo(old(db), org, cid, p)
      ensures (db == if r.Found? && !Linked(old(db), org, cid) then old(db).(links := old(db).links[Link(r.project, cid) := now]) else old(db))
    {
      var byJid;
      r, byJid := ReadForConversation(org, cid, access);
      if byJid {
        assert Link(r.project, cid) in db.links ==> LinkedTo(db, org, cid, r.project);
        Adopt(cid, r.project, now);
      }
    }

    /** attachByConversationIds, and the first loop of the filter. */
    method AttachLinks(links: seq<Link>) returns (m: map<ConvId, ProjectId>)
      ensures FirstLinks(links, m)
    {
      m := map[];
      for i := 0 to |links|
        invariant FirstLinks(links[..i], m)
      {
        OneMoreLink(links[..i], links[i], m);
        assert links[..i] + [links[i]] == links[..i + 1];
        if links[i].conv !in m {
          m := m[links[i].conv := links[i].project];
        }
      }
      assert links[..|links|] == links;
    }

    /** attachByJids, and the second loop of the filter. */
    method AttachByJids(projects: seq<ProjectId>) returns (m: map<Jid, ProjectId>)
      requires forall p | p in projects :: p in db.projects
      ensures FirstNamed(db, projects, m)
    {
      m := map[];
      for i := 0 to |projects|
        invariant FirstNamed(db, projects[..i], m)
      {
        OneMoreNamed(db, projects[..i], projects[i], m);
        assert projects[..i] + [projects[i]] == projects[..i + 1];
        var jid := JidOf(db.projects[projects[i]]);
        if jid.Some? && jid.value !in m {
          m := m[jid.value := projects[i]];
        }
      }
      assert projects[..|projects|] == projects;
    }

    /** The third loop of the filter: groups found by the join, behind the links. */
    method JoinGroups(legacy: map<Jid, ProjectId>, groups: seq<Group>, linked: map<ConvId, ProjectId>) returns (m: map<ConvId, ProjectId>)
      ensures Joining(legacy, groups, linked, m)
    {
      m := linked;
      for i := 0 to |groups|
        invariant Joining(legacy, groups[..i], linked, m)
      {
        OneMoreJoin(legacy, groups[..i], groups[i], linked, m);
        assert groups[..i] + [groups[i]] == groups[..i + 1];
        if groups[i].jid in legacy && groups[i].conv !in m {
          m := m[groups[i].conv := legacy[groups[i].jid]];
        }
      }
      assert groups[..|groups|] == groups;
    }

    /** resolveFilter with a kind: the conversations whose dossier passes, and their channels. */
    method ResolveFilter(org: OrgId, f: Filter, links: seq<Link>, projects: seq<ProjectId>) returns (ids: set<ConvId>, channels: set<ChannelId>)
      requires LinksListed(db, org, links) && ProjectsListed(db, org, projects)
      ensures Tidy(db, org) ==> forall cid :: cid in ids <==> Matches(db, org, f, cid)
      ensures forall cid | cid in ids :: InOrg(db, org, cid)
      ensures forall ch :: ch in channels <==> exists cid :: cid in ids && cid in db.conversations && db.conversations[cid].channel == ch
    {
      var linked := AttachLinks(links);
      var legacy := AttachByJids(projects);
      var groups := FindGroupsByJids(org, legacy.Keys);
      var m := JoinGroups(legacy, groups, linked);
      ResolvedInside(db, org, links, projects, groups, linked, legacy, m);
      ids, channels := Select(org, f, m);
      if Tidy(db, org) {
        BulkIsLookup(db, org, links, projects, groups, linked, legacy, m);
        forall cid ensures cid in ids <==> Matches(db, org, f, cid) {
          MatchesThrough(db, org, f, m, cid);
        }
      }
    }

    method Select(org: OrgId, f: Filter, m: map<ConvId, ProjectId>) returns (ids: set<ConvId>, channels: set<ChannelId>)
      requires forall c | c in m :: InOrg(db, org, c) && m[c] in db.projects
      ensures forall c :: c in ids <==> c in m && Passes(f, ToDetail(db.projects[m[c]]))
      ensures forall ch :: ch in channels <==> exists c :: c in ids && c in db.conversations && db.conversations[c].channel == ch
    {
      ids := set c | c in m && Passes(f, ToDetail(db.projects[m[c]]));
      channels := set c | c in ids :: db.conversations[c].channel;
    }

    /** resolveFilter without a kind: the conversations linked to the dossiers found, dead or
        alive, and their channels. */
    method ResolveByLinks(org: OrgId, f: Filter, found: seq<Listed>) returns (ids: set<ConvId>, channels: set<ChannelId>)
      requires FoundListed(db, org, f, found) && forall k | k in db.links :: k.conv in db.conversations
      ensures forall cid :: cid in ids <==> FoundByLink(db, org, f, cid)
      ensures forall ch :: ch in channels <==> exists cid :: cid in ids && cid in db.conversations && db.conversations[cid].channel == ch
    {
      ids, channels := {}, {};
      for i := 0 to |found|
        invariant forall cid | cid in ids :: cid in db.conversations
        invariant forall cid :: cid in ids <==> exists x :: x in found[..i] && cid in x.convs
        invariant channels == set cid | cid in ids :: db.conversations[cid].channel
      {
        assert found[i] in found;
        assert forall x :: x in found[..i + 1] <==> x in found[..i] || x == found[i];
        var convs := Elements(found[i].convs);
        ghost var before := ids;
        ids := ids + convs;
        channels := channels + set cid | cid in convs :: db.conversations[cid].channel;
        assert forall cid :: cid in ids <==> cid in before || cid in found[i].convs;
      }
      assert found[..|found|] == found;
      forall cid ensures cid in ids <==> FoundByLink(db, org, f, cid) {
        FoundThrough(db, org, f, found, cid);
      }
    }

    /** The join, in no particular order. */
    method FindGroupsByJids(org: OrgId, jids: set<Jid>) returns (groups: seq<Group>)
      ensures GroupsListed(db, org, jids, groups)
    {
      var rows := set c, r | c in db.conversations && r in db.contactChannels && r.externalId in jids
                             && r == ContactChannel(db.conversations[c].contact, db.conversations[c].channel, r.externalId)
                             && Joined(db, org, c, r.externalId) :: Group(c, r.externalId);
      forall g ensures g in rows <==> g.jid in jids && Joined(db, org, g.conv, g.jid) {
        if g.jid in jids && Joined(db, org, g.conv, g.jid) {
          var c := db.conversations[g.conv];
          assert ContactChannel(c.contact, c.channel, g.jid) in db.contactChannels;
        }
      }
      groups := InSomeOrder(rows);
    }

    static method InSomeOrder(rows: set<Group>) returns (l: seq<Group>)
      ensures forall g :: g in l <==> g in rows
    {
      l := [];
      var left := rows;
      while left != {}
        invariant left <= rows && forall g :: g in l <==> g in rows && g !in left
        decreases left
      {
        var g :| g in left;
        l, left := l + [g], left - {g};
      }
    }

    /** Detach the dossier from the conversation, or from its whole group; what nothing holds
        any more is soft-deleted. */
    method RemoveForConversation(org: OrgId, cid: ConvId, only: Option<ProjectId>, access: Option<set<ChannelId>>)
      returns (r: Outcome, removed: nat)
      modifies this
      ensures !InOrg(old(db), org, cid) ==> r == NotFound
      ensures r == Forbidden <==> InOrg(old(db), org, cid) && access.Some? && old(db).conversations[cid].channel !in access.value
      ensures !r.Found? ==> db == old(db)
      ensures (r == NotFound && InOrg(old(db), org, cid) ==>
                && (forall q | LinkedTo(old(db), org, cid, q) :: only.Some? && q != only.value)
                && (GroupJid(old(db), cid).Some? ==>
                      forall q | Names(old(db), org, GroupJid(old(db), cid).value, q) :: only.Some? && q != only.value))
      ensures r.Found? ==> IsOpen(old(db), org, r.project) && Removed(old(db), db, org, cid, r.project)
      ensures r.Found? && only.None? ==> ResolvesTo(old(db), org, cid, r.project)
      ensures r.Found? && only.Some? ==> r.project == only.value
      ensures (r.Found? && !LinkedTo(old(db), org, cid, r.project) ==>
                GroupJid(old(db), cid).Some? && Names(old(db), org, GroupJid(old(db), cid).value, r.project))
      ensures (removed == if !r.Found? then 0
                          else if GroupJid(old(db), cid).Some? && old(db).projects[r.project].groupJid == GroupJid(old(db), cid)
                          then |Detached(old(db), org, cid)|
                          else |set k | k in old(db).links && k.project == r.project && k.conv in Detached(old(db), org, cid)|)
    {
      removed := 0;
      if !InOrg(db, org, cid) {
        return NotFound, 0;
      }
      var c := db.conversations[cid];
      if access.Some? && c.channel !in access.value {
        return Forbidden, 0;
      }
      var jid := if c.isGroup then DeriveGroupJid(db, c) else None;
      var target := NewestLinkOf(org, cid, only);
      if target.None? && jid.Some? {
        target := NewestNamed(org, jid.value, only);
      }
      if target.None? {
        return NotFound, 0;
      }
      removed := Detach(org, cid, target.value);
      r := Found(target.value);
    }

    /** `removed` counts the whole group when the dossier was the group's own. */
    method Detach(org: OrgId, cid: ConvId, p: ProjectId) returns (removed: nat)
      requires IsOpen(db, org, p)
      modifies this
      ensures Removed(old(db), db, org, cid, p)
      ensures (removed == if GroupJid(old(db), cid).Some? && old(db).projects[p].groupJid == GroupJid(old(db), cid)
                          then |Detached(old(db), org, cid)|
                          else |set k | k in old(db).links && k.project == p && k.conv in Detached(old(db), org, cid)|)
    {
      var jid := GroupJid(db, cid);
      var ids := Detached(db, org, cid);
      var own := jid.Some? && db.projects[p].groupJid == jid;
      var gone := set k | k in db.links && k.project == p && k.conv in ids;
      removed := if own then |ids| else |gone|;
      db := db.(links := db.links - gone);
      if own {
        db := db.(projects := db.projects[p := db.projects[p].(groupJid := None)]);
      }
      if Bare(db, p) {
        db := db.(projects := db.projects[p := db.projects[p].(live := false)]);
      }
    }
  }

  lemma OneMoreJoin(legacy: map<Jid, ProjectId>, groups: seq<Group>, g: Group, before: map<ConvId, ProjectId>, m: map<ConvId, ProjectId>)
    requires Joining(legacy, groups, before, m)
    ensures Joining(legacy, groups + [g], before, if g.jid in legacy && g.conv !in m then m[g.conv := legacy[g.jid]] else m)
  {
  }
}
