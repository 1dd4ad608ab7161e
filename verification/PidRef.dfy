/** The table that renames PIDs: a fixed array of entries, searched in order.  An entry whose
    original PID is 0 is free. */
module PidRef {
  import opened Ts

  const WORD16: nat := 0x1_0000

  datatype Entry = Entry(org: nat, renamed: nat)

  const FREE_ENTRY := Entry(0, 0)

  /** The first entry for `org`, or the length of the table. */
  function IndexOf(entries: seq<Entry>, org: nat): (i: nat)
    ensures i <= |entries|
    ensures i < |entries| ==> entries[i].org == org
    ensures forall j :: 0 <= j < i ==> entries[j].org != org
  {
    if entries == [] || entries[0].org == org then 0 else 1 + IndexOf(entries[1..], org)
  }

  lemma IndexOfIs(entries: seq<Entry>, org: nat, i: nat)
    requires i <= |entries| && (i < |entries| ==> entries[i].org == org)
    requires forall j :: 0 <= j < i ==> entries[j].org != org
    ensures IndexOf(entries, org) == i
  {
  }

  /** The new PID of `org`; 0 means that it has none. */
  function Lookup(entries: seq<Entry>, org: nat): nat {
    var i := IndexOf(entries, org);
    if org == 0 || i == |entries| then 0 else entries[i].renamed
  }

  function Added(entries: seq<Entry>, org: nat, renamed: nat): (r: seq<Entry>)
    ensures |r| == |entries|
  {
    var i := IndexOf(entries, 0);
    if org == 0 || i == |entries| then entries else entries[i := Entry(org, renamed)]
  }

  function Deleted(entries: seq<Entry>, org: nat): (r: seq<Entry>)
    ensures |r| == |entries|
  {
    var i := IndexOf(entries, org);
    if org == 0 || i == |entries| then entries else entries[i := FREE_ENTRY]
  }

  /** A packet's PID is renamed when the table knows it and left alone otherwise. */
  function Renamed(entries: seq<Entry>, p: Packet): Packet {
    var pid := Lookup(entries, p.pid);
    if pid == 0 then p else p.(pid := pid % (NULL_PID + 1))
  }

  /** `q` is `p` on another PID, that of the table's entry, and otherwise as it was; or it is `p`. */
  predicate IsRenamed(entries: seq<Entry>, p: Packet, q: Packet) {
    if Lookup(entries, p.pid) == 0 then q == p
    else q == p.(pid := q.pid) && q.pid == Lookup(entries, p.pid) % 0x2000
  }

  lemma RenamedIs(entries: seq<Entry>, p: Packet)
    ensures IsRenamed(entries, p, Renamed(entries, p))
  {
  }

  class PidTable {
    const entries: array<Entry>
    var basePid: nat

    /** `pidref_init` */
    constructor (num: nat, base: nat)
      ensures basePid == base && entries.Length == num && fresh(entries)
      ensures forall i :: 0 <= i < num ==> entries[i] == FREE_ENTRY
    {
      entries := new Entry[num](_ => FREE_ENTRY);
      basePid := base;
    }

    /** The search loop shared by the methods below. */
    method Find(org: nat) returns (i: nat)
      ensures i == IndexOf(entries[..], org)
    {
      i := 0;
      while i < entries.Length
        invariant i <= entries.Length
        invariant forall j :: 0 <= j < i ==> entries[j].org != org
      {
        if entries[i].org == org {
          break;
        }
        i := i + 1;
      }
      IndexOfIs(entries[..], org, i);
    }

    /** `pidref_add` fails silently when the table is full, and ignores PID 0. */
    method Add(org: nat, renamed: nat) returns (ok: bool)
      modifies entries
      ensures entries[..] == Added(old(entries[..]), org, renamed)
      ensures ok <==> org != 0 && IndexOf(old(entries[..]), 0) < entries.Length
    {
      if org == 0 {
        return false;
      }
      var i := Find(0);
      ok := i < entries.Length;
      if ok {
        entries[i] := Entry(org, renamed);
      }
    }

    /** `pidref_del` */
    method Del(org: nat) returns (ok: bool)
      modifies entries
      ensures entries[..] == Deleted(old(entries[..]), org)
      ensures ok <==> org != 0 && IndexOf(old(entries[..]), org) < entries.Length
    {
      if org == 0 {
        return false;
      }
      var i := Find(org);
      ok := i < entries.Length;
      if ok {
        entries[i] := FREE_ENTRY;
      }
    }

    /** `pidref_get_new_pid` */
    method GetNewPid(org: nat) returns (pid: nat)
      ensures pid == Lookup(entries[..], org)
    {
      if org == 0 {
        return 0;
      }
      var i := Find(org);
      pid := if i < entries.Length then entries[i].renamed else 0;
    }

    /** `pidref_change_packet_pid` */
    method ChangePacketPid(p: Packet) returns (q: Packet)
      ensures q == Renamed(entries[..], p)
      ensures IsRenamed(entries[..], p, q)
    {
      q := p;
      var pid := GetNewPid(p.pid);
      if pid != 0 {
        q := q.(pid := pid % (NULL_PID + 1));
      }
    }
  }

  // ---- What the table means

  /** Adding a PID that is not there yet makes it known and disturbs no other; deleting it
      again restores every answer. */
  lemma AddThenDelete(entries: seq<Entry>, org: nat, renamed: nat, other: nat)
    requires org != 0 && IndexOf(entries, org) == |entries| && IndexOf(entries, 0) < |entries|
    ensures var added := Added(entries, org, renamed);
            && Lookup(added, org) == renamed
            && (other != org ==> Lookup(added, other) == Lookup(entries, other))
            && Lookup(Deleted(added, org), other) == Lookup(entries, other)
            && (entries[IndexOf(entries, 0)] == Entry(0, 0) ==> Deleted(added, org) == entries)
  {
    var i := IndexOf(entries, 0);
    var added := Added(entries, org, renamed);
    IndexOfIs(added, org, i);
    var back := Deleted(added, org);
    if other != 0 && other != org {
      IndexOfIs(added, other, IndexOf(entries, other));
    }
    if other != 0 {
      IndexOfIs(back, other, IndexOf(entries, other));
    }
  }
}
