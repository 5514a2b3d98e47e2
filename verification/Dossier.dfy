/**
 * Which dossier (project) a conversation belongs to: the newest link of the conversation
 * itself or, for a group, the newest dossier that names the group's JID.
 */
module Dossier {
  import opened Options

  type OrgId = nat
  type ChannelId = nat
  type ContactId = nat
  type ConvId = nat
  type ProjectId = nat
  type Jid = string

  const GROUP_JID_SUFFIX: string := "@g.us"

  datatype Conversation = Conversation(org: OrgId, live: bool, isGroup: bool, channel: ChannelId, contact: ContactId)

  datatype ContactChannel = ContactChannel(contact: ContactId, channel: ChannelId, externalId: Jid)

  datatype Project = Project(org: OrgId, live: bool, groupJid: Option<Jid>, hoppe: Option<string>, responsible: Option<nat>,
                             responsibleInOrg: bool, status: Option<string>, mentorship: bool, tasks: nat, attachments: nat,
                             updatedAt: int)

  datatype Link = Link(project: ProjectId, conv: ConvId)

  /** The tables; `links` maps each row to its creation time, `channels` to its organization. */
  datatype Db = Db(conversations: map<ConvId, Conversation>, contactChannels: seq<ContactChannel>, channels: map<ChannelId, OrgId>,
                   projects: map<ProjectId, Project>, links: map<Link, int>)

  predicate EndsWith(s: string, suffix: string) {
    |suffix| <= |s| && s[|s| - |suffix|..] == suffix
  }

  /** An empty JID counts as none. */
  function JidOf(p: Project): Option<Jid> {
    if p.groupJid.Some? && p.groupJid.value != "" then p.groupJid else None
  }

  // ---------------------------------------------------------------- the group of a conversation

  /** The first row of the contact on that channel. */
  function FirstRow(rows: seq<ContactChannel>, contact: ContactId, channel: ChannelId): (r: Option<ContactChannel>)
    ensures r.Some? ==> r.value in rows && r.value.contact == contact && r.value.channel == channel
    ensures r.None? ==> forall x | x in rows :: !(x.contact == contact && x.channel == channel)
  {
    if rows == [] then None
    else if rows[0].contact == contact && rows[0].channel == channel then Some(rows[0])
    else FirstRow(rows[1..], contact, channel)
  }

  function DeriveGroupJid(db: Db, c: Conversation): Option<Jid> {
    var row := FirstRow(db.contactChannels, c.contact, c.channel);
    if row.Some? && EndsWith(row.value.externalId, GROUP_JID_SUFFIX) then Some(row.value.externalId) else None
  }

  predicate InOrg(db: Db, org: OrgId, cid: ConvId) {
    cid in db.conversations && db.conversations[cid].live && db.conversations[cid].org == org
  }

  /** The join of findGroupsByJids: any row of the contact on the conversation's channel. */
  predicate Joined(db: Db, org: OrgId, cid: ConvId, jid: Jid) {
    && InOrg(db, org, cid)
    && var c := db.conversations[cid];
       && c.isGroup && c.channel in db.channels && db.channels[c.channel] == org
       && ContactChannel(c.contact, c.channel, jid) in db.contactChannels
  }

  /** The JID that getForConversation looks a conversation up by. */
  function GroupJid(db: Db, cid: ConvId): Option<Jid> {
    if cid in db.conversations && db.conversations[cid].isGroup then DeriveGroupJid(db, db.conversations[cid]) else None
  }

  // ---------------------------------------------------------------- the lookup

  predicate IsOpen(db: Db, org: OrgId, p: ProjectId) {
    p in db.projects && db.projects[p].live && db.projects[p].org == org
  }

  predicate LinkedTo(db: Db, org: OrgId, cid: ConvId, p: ProjectId) {
    Link(p, cid) in db.links && IsOpen(db, org, p)
  }

  ghost predicate NewestLink(db: Db, org: OrgId, cid: ConvId, p: ProjectId) {
    LinkedTo(db, org, cid, p) && forall q | LinkedTo(db, org, cid, q) :: db.links[Link(q, cid)] <= db.links[Link(p, cid)]
  }

  predicate Names(db: Db, org: OrgId, jid: Jid, p: ProjectId) {
    IsOpen(db, org, p) && JidOf(db.projects[p]) == Some(jid)
  }

  ghost predicate NewestOfJid(db: Db, org: OrgId, jid: Jid, p: ProjectId) {
    Names(db, org, jid, p) && forall q | Names(db, org, jid, q) :: db.projects[q].updatedAt <= db.projects[p].updatedAt
  }

  ghost predicate Linked(db: Db, org: OrgId, cid: ConvId) {
    exists p :: LinkedTo(db, org, cid, p)
  }

  /** The simple lookup: conversation `cid` of `org` belongs to dossier `p`. */
  ghost predicate ResolvesTo(db: Db, org: OrgId, cid: ConvId, p: ProjectId) {
    && InOrg(db, org, cid)
    && (if Linked(db, org, cid) then NewestLink(db, org, cid, p)
        else GroupJid(db, cid).Some? && NewestOfJid(db, org, GroupJid(db, cid).value, p))
  }

  /** No two rows carry the same time, so "newest" is one row. */
  ghost predicate DistinctTimes(db: Db) {
    && (forall a, b | a in db.links && b in db.links && a != b :: db.links[a] != db.links[b])
    && (forall p, q | p in db.projects && q in db.projects && p != q :: db.projects[p].updatedAt != db.projects[q].updatedAt)
  }

  lemma ResolvesToOne(db: Db, org: OrgId, cid: ConvId, p: ProjectId, q: ProjectId)
    requires DistinctTimes(db) && ResolvesTo(db, org, cid, p) && ResolvesTo(db, org, cid, q)
    ensures p == q
  {
  }

  // ---------------------------------------------------------------- the join against the derived JID

  /** A contact has at most one row on a channel. */
  ghost predicate OneRowPerChannel(db: Db) {
    forall a, b | a in db.contactChannels && b in db.contactChannels && a.contact == b.contact && a.channel == b.channel :: a == b
  }

  ghost predicate ChannelsOwned(db: Db) {
    forall cid | cid in db.conversations ::
      db.conversations[cid].channel in db.channels && db.channels[db.conversations[cid].channel] == db.conversations[cid].org
  }

  /** What a lookup derives, the join always finds. */
  lemma DerivedIsJoined(db: Db, org: OrgId, cid: ConvId)
    requires ChannelsOwned(db) && InOrg(db, org, cid) && GroupJid(db, cid).Some?
    ensures Joined(db, org, cid, GroupJid(db, cid).value)
  {
  }

  /** And nothing else, when rows are unique and the JID is a group's. */
  lemma JoinedIsDerived(db: Db, org: OrgId, cid: ConvId, jid: Jid)
    requires OneRowPerChannel(db) && EndsWith(jid, GROUP_JID_SUFFIX) && Joined(db, org, cid, jid)
    ensures GroupJid(db, cid) == Some(jid)
  {
  }

  ghost predicate GroupJidsOnly(db: Db, org: OrgId) {
    forall p | IsOpen(db, org, p) && JidOf(db.projects[p]).Some? :: EndsWith(JidOf(db.projects[p]).value, GROUP_JID_SUFFIX)
  }

  // ---------------------------------------------------------------- what the database lists

  /** The links findMany returns: those of open dossiers to live conversations, newest first. */
  ghost predicate LinksListed(db: Db, org: OrgId, l: seq<Link>) {
    && (forall k :: k in l <==> k in db.links && IsOpen(db, org, k.project) && InOrg(db, org, k.conv))
    && (forall i, j | 0 <= i < j < |l| && l[i] in db.links && l[j] in db.links :: db.links[l[i]] >= db.links[l[j]])
  }

  ghost predicate ProjectsListed(db: Db, org: OrgId, l: seq<ProjectId>) {
    && (forall p :: p in l <==> IsOpen(db, org, p) && db.projects[p].groupJid.Some?)
    && (forall i, j | 0 <= i < j < |l| && l[i] in db.projects && l[j] in db.projects ::
          db.projects[l[i]].updatedAt >= db.projects[l[j]].updatedAt)
  }

  datatype Group = Group(conv: ConvId, jid: Jid)

  ghost predicate GroupsListed(db: Db, org: OrgId, jids: set<Jid>, l: seq<Group>) {
    forall g :: g in l <==> g.jid in jids && Joined(db, org, g.conv, g.jid)
  }

  // ---------------------------------------------------------------- first wins

  /** The map a first-wins loop over the links builds. */
  ghost predicate FirstLinks(l: seq<Link>, m: map<ConvId, ProjectId>) {
    && (forall k | k in l :: k.conv in m)
    && (forall c | c in m :: exists i | 0 <= i < |l| :: l[i] == Link(m[c], c) && forall j | 0 <= j < i :: l[j].conv != c)
  }

  lemma OneMoreLink(l: seq<Link>, k: Link, m: map<ConvId, ProjectId>)
    requires FirstLinks(l, m)
    ensures FirstLinks(l + [k], if k.conv in m then m else m[k.conv := k.project])
  {
    var l', m' := l + [k], if k.conv in m then m else m[k.conv := k.project];
    forall c | c in m' ensures exists i | 0 <= i < |l'| :: l'[i] == Link(m'[c], c) && forall j | 0 <= j < i :: l'[j].conv != c {
      if c in m {
        var i :| 0 <= i < |l| && l[i] == Link(m[c], c) && forall j | 0 <= j < i :: l[j].conv != c;
        assert l'[i] == l[i] && forall j | 0 <= j < i :: l'[j] == l[j];
      } else {
        assert l'[|l|] == k;
        forall j | 0 <= j < |l| ensures l'[j].conv != c {
          assert l'[j] == l[j] && l[j] in l;
        }
      }
    }
    forall x | x in l' ensures x.conv in m' {
      assert x in l || x == k;
    }
  }

  /** Over the listed links it holds the newest link of every linked conversation. */
  lemma FirstLinkIsNewest(db: Db, org: OrgId, l: seq<Link>, m: map<ConvId, ProjectId>, c: ConvId)
    requires LinksListed(db, org, l) && FirstLinks(l, m)
    ensures c in m <==> InOrg(db, org, c) && Linked(db, org, c)
    ensures c in m ==> NewestLink(db, org, c, m[c])
  {
    if c in m {
      var i :| 0 <= i < |l| && l[i] == Link(m[c], c) && forall j | 0 <= j < i :: l[j].conv != c;
      assert l[i] in l;
      assert LinkedTo(db, org, c, m[c]);
      forall q | LinkedTo(db, org, c, q) ensures db.links[Link(q, c)] <= db.links[l[i]] {
        var k :| 0 <= k < |l| && l[k] == Link(q, c);
        assert !(k < i);
      }
    }
    if InOrg(db, org, c) && Linked(db, org, c) {
      var p :| LinkedTo(db, org, c, p);
      assert Link(p, c) in l;
    }
  }

  /** The map a first-wins loop over the dossiers builds. */
  ghost predicate FirstNamed(db: Db, l: seq<ProjectId>, m: map<Jid, ProjectId>)
    requires forall p | p in l :: p in db.projects
  {
    && (forall p | p in l && JidOf(db.projects[p]).Some? :: JidOf(db.projects[p]).value in m)
    && (forall jid | jid in m :: exists i | 0 <= i < |l| ::
          l[i] == m[jid] && JidOf(db.projects[l[i]]) == Some(jid) && forall j | 0 <= j < i :: JidOf(db.projects[l[j]]) != Some(jid))
  }

  lemma OneMoreNamed(db: Db, l: seq<ProjectId>, p: ProjectId, m: map<Jid, ProjectId>)
    requires p in db.projects && (forall p | p in l :: p in db.projects) && FirstNamed(db, l, m)
    ensures FirstNamed(db, l + [p], if JidOf(db.projects[p]).Some? && JidOf(db.projects[p]).value !in m
                                    then m[JidOf(db.projects[p]).value := p] else m)
  {
    var jid := JidOf(db.projects[p]);
    var l', m' := l + [p], if jid.Some? && jid.value !in m then m[jid.value := p] else m;
    forall x | x in m' ensures exists i | 0 <= i < |l'| ::
        l'[i] == m'[x] && JidOf(db.projects[l'[i]]) == Some(x) && forall j | 0 <= j < i :: JidOf(db.projects[l'[j]]) != Some(x)
    {
      if x in m {
        var i :| 0 <= i < |l| && l[i] == m[x] && JidOf(db.projects[l[i]]) == Some(x) && forall j | 0 <= j < i :: JidOf(db.projects[l[j]]) != Some(x);
        assert l'[i] == l[i] && forall j | 0 <= j < i :: l'[j] == l[j];
      } else {
        assert l'[|l|] == p;
        forall j | 0 <= j < |l| ensures JidOf(db.projects[l'[j]]) != Some(x) {
          assert l'[j] == l[j] && l[j] in l;
        }
      }
    }
    forall q | q in l' && JidOf(db.projects[q]).Some? ensures JidOf(db.projects[q]).value in m' {
      assert q in l || q == p;
    }
  }

  lemma FirstNamedIsNewest(db: Db, org: OrgId, l: seq<ProjectId>, m: map<Jid, ProjectId>, jid: Jid)
    requires ProjectsListed(db, org, l) && FirstNamed(db, l, m)
    ensures jid in m <==> exists p :: Names(db, org, jid, p)
    ensures jid in m ==> NewestOfJid(db, org, jid, m[jid])
  {
    if jid in m {
      var i :| 0 <= i < |l| && l[i] == m[jid] && JidOf(db.projects[l[i]]) == Some(jid) && forall j | 0 <= j < i :: JidOf(db.projects[l[j]]) != Some(jid);
      assert l[i] in l;
      assert Names(db, org, jid, m[jid]);
      forall q | Names(db, org, jid, q) ensures db.projects[q].updatedAt <= db.projects[m[jid]].updatedAt {
        assert q in l;
        var k :| 0 <= k < |l| && l[k] == q;
        assert !(k < i);
      }
    }
    if p :| Names(db, org, jid, p) {
      assert p in l;
    }
  }
}
