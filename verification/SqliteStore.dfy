/**
 The store object: the transactions of internal/store/sqlite.go as they run, statement by
 statement, each proved to have the effect module `Store` gives it.
 */
module SqliteStore {
  import opened Types
  import opened Store

  class SQLiteStore {
    var node: map<PubKey, Row>
    var chan: set<(int, Chan)>
    var channels: map<Chan, int>
    var announce: seq<AnnounceRow>
    var dayc: int
    var last: int

    ghost function Contents(): Tables
      reads this
    {
      Tables(node, chan, channels, announce, dayc, last)
    }

    constructor (today: int)
      ensures Contents() == InitialTables(today)
    {
      node, chan, channels, announce, dayc, last := map[], {}, map[], [], 1, today;
    }

    /** Inserts the channel rows one by one; the primary key (node, chan) refuses a second
        copy, and then the whole transaction is rolled back. */
    method AddNetNode(key: PubKey, rec: Record, names: seq<Chan>, freshOid: int)
      returns (changed: bool, ok: bool)
      requires key !in node ==> FreshOid(Contents(), freshOid)
      modifies this
      ensures Contents() == AfterAddNode(old(Contents()), key, rec, names, freshOid)
      ensures changed <==> OutcomeOf(old(Contents()), key, rec.payload, names) == Changed
      ensures ok <==> OutcomeOf(old(Contents()), key, rec.payload, names) != Rejected
      ensures changed ==> key in node && node[key].rec == rec && node[key].dayc == old(dayc) + 30
      ensures changed ==> ChansUnder(Contents(), node[key].oid) == ToSet(names)
      ensures !changed ==> Contents() == old(Contents())
    {
      var oid := freshOid;
      if key in node {
        oid := node[key].oid;
        if node[key].rec.payload == rec.payload {
          return false, true;
        }
      }
      var savedNode, savedChan := node, chan;
      node := node[key := Row(oid, rec, NODE_DAYS + dayc)];
      chan := set e | e in chan && e.0 != oid;
      var kept := chan;
      for i := 0 to |names|
        invariant chan == kept + (set c | c in names[..i] :: (oid, c))
        invariant Distinct(names[..i])
        invariant node == savedNode[key := Row(oid, rec, NODE_DAYS + dayc)]
        invariant channels == old(channels) && announce == old(announce)
        invariant dayc == old(dayc) && last == old(last)
      {
        assert names[..i + 1] == names[..i] + [names[i]];
        if (oid, names[i]) in chan {
          assert names[i] in names[..i];
          assert !Distinct(names);
          node, chan := savedNode, savedChan;
          return false, false;
        }
        chan := chan + {(oid, names[i])};
      }
      assert names[..|names|] == names;
      AddNodeWrites(old(Contents()), key, rec, names, freshOid, key, oid);
      return true, true;
    }

    method UpdateNetTime(key: PubKey)
      modifies this
      ensures Contents() == AfterUpdateNetTime(old(Contents()), key)
      ensures key in node ==> node[key] == Row(old(node)[key].oid, old(node)[key].rec, old(dayc) + 30)
    {
      if key in node {
        node := node[key := node[key].(dayc := NODE_DAYS + dayc)];
      }
    }

    method AddChannel(c: Chan)
      modifies this
      ensures Contents() == AfterAddChannel(old(Contents()), c)
      ensures channels == old(channels)[c := old(dayc) + 7]
    {
      var rowsAffected := 0;
      if c in channels {
        channels := channels[c := CHANNEL_DAYS + dayc];
        rowsAffected := 1;
      }
      if rowsAffected == 0 {
        channels := channels[c := CHANNEL_DAYS + dayc];
      }
    }

    /** `remNode` ends up as the number of channels removed: the count of removed nodes is
        overwritten before it is returned. */
    method TrimNodes(today: int) returns (advanced: bool, remNode: int)
      modifies this
      ensures Contents() == AfterTrimNodes(old(Contents()), today)
      ensures advanced <==> Advances(old(Contents()), Op.TrimNodes(today))
      ensures remNode == |old(channels)| - |channels|
    {
      advanced, remNode := false, 0;
      if last != today {
        dayc := dayc + 1;
        advanced := true;
        last := today;
        var nodesBefore := |node|;
        node := LiveNodes(node, dayc);
        remNode := nodesBefore - |node|;
        var channelsBefore := |channels|;
        channels := LiveChannels(channels, dayc);
        remNode := channelsBefore - |channels|;
      }
    }

    method SetAnnounce(payload: Payload, sig: Signature, time: int) returns (ok: bool)
      modifies this
      ensures Contents() == AfterSetAnnounce(old(Contents()), payload, sig, time)
      ensures ok <==> old(announce) != []
    {
      var updated := [];
      for i := 0 to |announce|
        invariant updated == AfterSetAnnounce(old(Contents()).(announce := announce[..i]), payload, sig, time).announce
        invariant Contents() == old(Contents())
      {
        updated := updated + [announce[i].(payload := payload, sig := sig, time := time)];
      }
      assert announce[..|announce|] == announce;
      ok := announce != [];
      announce := updated;
    }

    method SetAnnounceOwner(owner: PubKey)
      modifies this
      ensures Contents() == AfterSetAnnounceOwner(old(Contents()), owner)
    {
      var updated := [];
      for i := 0 to |announce|
        invariant |updated| == i
        invariant forall j :: 0 <= j < i ==> updated[j] == announce[j].(owner := Some(owner))
        invariant Contents() == old(Contents())
      {
        updated := updated + [announce[i].(owner := Some(owner))];
      }
      announce := if |updated| == 0 then [AnnounceRow(0, 0, 0, Some(owner))] else updated;
    }
  }
}
