/** What a removal takes and what it leaves, said by the rows of the database. */
module DossierRemoval {
  import opened Options
  import opened Dossier
  import opened DossierService

  /** The JID of a conversation's group: the row of its contact on its channel, if it is a group's. */
  lemma GroupJidExactly(db: Db, cid: ConvId, jid: Jid)
    requires OneRowPerChannel(db) && cid in db.conversations
    ensures GroupJid(db, cid) == Some(jid) <==>
              && db.conversations[cid].isGroup
              && (exists row | row in db.contactChannels ::
                    row.contact == db.conversations[cid].contact && row.channel == db.conversations[cid].channel && row.externalId == jid)
              && |jid| >= 5 && jid[|jid| - 5..] == "@g.us"
  {
  }

  /** An open dossier is named by its own JID, and an empty one names nothing. */
  lemma NamesExactly(db: Db, org: OrgId, jid: Jid, p: ProjectId)
    ensures Names(db, org, jid, p) <==>
              p in db.projects && db.projects[p].live && db.projects[p].org == org && db.projects[p].groupJid == Some(jid) && jid != ""
  {
  }

  /** The conversations detached are the one asked for and those of its group, and no others. */
  lemma DetachedExactly(db: Db, org: OrgId, cid: ConvId, other: ConvId)
    requires OneRowPerChannel(db) && ChannelsOwned(db) && InOrg(db, org, cid)
    ensures other in Detached(db, org, cid) <==> SameGroup(db, org, cid, other)
  {
    var jid := GroupJid(db, cid);
    if jid.Some? {
      if other in Detached(db, org, cid) {
        JoinedIsDerived(db, org, other, jid.value);
      }
      if SameGroup(db, org, cid, other) {
        DerivedIsJoined(db, org, other);
      }
    }
  }

  /** A removal takes the links between the dossier and those conversations, and no other link. */
  lemma LinksGoExactly(db: Db, db': Db, org: OrgId, cid: ConvId, p: ProjectId, k: Link)
    requires OneRowPerChannel(db) && ChannelsOwned(db) && InOrg(db, org, cid)
    requires p in db.projects && Removed(db, db', org, cid, p)
    ensures k in db'.links <==> k in db.links && !(k.project == p && SameGroup(db, org, cid, k.conv))
    ensures k in db'.links ==> db'.links[k] == db.links[k]
  {
    DetachedExactly(db, org, cid, k.conv);
  }

  /** The dossier lives on exactly when it has tasks or attachments, a link to a conversation
      that is not detached, or a JID that is not the group's. */
  lemma LivesOnExactly(db: Db, db': Db, org: OrgId, cid: ConvId, p: ProjectId)
    requires OneRowPerChannel(db) && ChannelsOwned(db) && InOrg(db, org, cid)
    requires p in db.projects && Removed(db, db', org, cid, p)
    ensures db'.projects[p].live <==>
              || db.projects[p].tasks > 0 || db.projects[p].attachments > 0
              || (exists k | k in db.links :: k.project == p && !SameGroup(db, org, cid, k.conv))
              || (db.projects[p].groupJid.Some? && db.projects[p].groupJid != Some("") && db.projects[p].groupJid != GroupJid(db, cid))
  {
    forall k ensures k in db'.links <==> k in db.links && !(k.project == p && SameGroup(db, org, cid, k.conv)) {
      LinksGoExactly(db, db', org, cid, p, k);
    }
    assert (exists k | k in db'.links :: k.project == p) <==> (exists k | k in db.links :: k.project == p && !SameGroup(db, org, cid, k.conv));
  }

  /** Conversations outside the group keep the dossier. */
  lemma OutsidersKeepIt(db: Db, db': Db, org: OrgId, cid: ConvId, p: ProjectId, other: ConvId)
    requires OneRowPerChannel(db) && ChannelsOwned(db) && InOrg(db, org, cid)
    requires p in db.projects && Removed(db, db', org, cid, p)
    requires !SameGroup(db, org, cid, other) && ResolvesTo(db, org, other, p)
    ensures ResolvesTo(db', org, other, p)
  {
    LivesOnExactly(db, db', org, cid, p);
    forall q ensures LinkedTo(db', org, other, q) <==> LinkedTo(db, org, other, q) && IsOpen(db', org, q) {
      LinksGoExactly(db, db', org, cid, p, Link(q, other));
    }
    assert GroupJid(db', other) == GroupJid(db, other);
    if Linked(db, org, other) {
      LinkHolds(db, db', org, cid, p, other);
    } else {
      JidHolds(db, db', org, cid, p, other);
    }
  }

  lemma LinkHolds(db: Db, db': Db, org: OrgId, cid: ConvId, p: ProjectId, other: ConvId)
    requires OneRowPerChannel(db) && ChannelsOwned(db) && InOrg(db, org, cid)
    requires p in db.projects && Removed(db, db', org, cid, p) && !SameGroup(db, org, cid, other) && NewestLink(db, org, other, p)
    ensures NewestLink(db', org, other, p)
  {
    LivesOnExactly(db, db', org, cid, p);
    assert Link(p, other) in db.links;
    LinksGoExactly(db, db', org, cid, p, Link(p, other));
    forall q | LinkedTo(db', org, other, q) ensures db'.links[Link(q, other)] <= db'.links[Link(p, other)] {
      assert LinkedTo(db, org, other, q);
    }
  }

  lemma JidHolds(db: Db, db': Db, org: OrgId, cid: ConvId, p: ProjectId, other: ConvId)
    requires OneRowPerChannel(db) && ChannelsOwned(db) && InOrg(db, org, cid)
    requires p in db.projects && Removed(db, db', org, cid, p) && !SameGroup(db, org, cid, other)
    requires InOrg(db, org, other) && GroupJid(db, other).Some? && NewestOfJid(db, org, GroupJid(db, other).value, p)
    ensures NewestOfJid(db', org, GroupJid(db, other).value, p)
  {
    LivesOnExactly(db, db', org, cid, p);
    NamesExactly(db, org, GroupJid(db, other).value, p);
    assert db.projects[p].groupJid != GroupJid(db, cid);
    forall q | Names(db', org, GroupJid(db, other).value, q) ensures Names(db, org, GroupJid(db, other).value, q) {
    }
  }
}
