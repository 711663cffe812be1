/**
 * The import status ledger of an installation: the record of how each data
 * import and each target import was last resolved, kept in two maps keyed
 * by import name (pkg/landscaper/installations/importstatus.go).
 */
module Installations {
  import opened Wrappers

  /** The type tag of a status entry; the API names two kinds, any other value is possible. */
  datatype ImportStatusType = DataImportStatusType | TargetImportStatusType | OtherStatusType(raw: string)

  /**
   * One status entry of the API (the record stored in either map): its name
   * and type, the export it came from, the import it went to, the
   * installation that produced it and the generation of the consumed value.
   */
  datatype ImportStatusEntry = ImportStatusEntry(
    name: string,
    statusType: ImportStatusType,
    from: string,
    to: string,
    sourceRef: string,
    configGeneration: string)

  /** The zero value of an entry: returned, with an error, by a failed lookup. */
  const ZeroStatus := ImportStatusEntry("", OtherStatusType(""), "", "", "", "")

  /** Text of the error a failed lookup reports. */
  function NotFoundMessage(name: string): (m: string)
    ensures |m| == |name| + 23 && m[13..13 + |name|] == name
  {
    "import state " + name + " not found"
  }

  /** The abstract value of the ledger: both maps. */
  datatype Ledger = Ledger(data: map<string, ImportStatusEntry>, target: map<string, ImportStatusEntry>)

  /**
   * The ledger after recording `s`: a data entry goes into the data map under
   * its name, a target entry into the target map, any other kind is dropped.
   */
  function WithStatus(l: Ledger, s: ImportStatusEntry): (r: Ledger)
    ensures s.statusType == DataImportStatusType ==>
      s.name in r.data && r.data[s.name] == s && r.data.Keys == l.data.Keys + {s.name} && r.target == l.target
    ensures s.statusType == TargetImportStatusType ==>
      s.name in r.target && r.target[s.name] == s && r.target.Keys == l.target.Keys + {s.name} && r.data == l.data
    ensures s.statusType.OtherStatusType? ==> r == l
    ensures r.data - {s.name} == l.data - {s.name}
    ensures r.target - {s.name} == l.target - {s.name}
  {
    if s.statusType == DataImportStatusType then l.(data := l.data[s.name := s])
    else if s.statusType == TargetImportStatusType then l.(target := l.target[s.name := s])
    else l
  }

  /** Recording the same entry twice leaves the ledger as recording it once. */
  lemma WithStatusIdempotent(l: Ledger, s: ImportStatusEntry)
    ensures WithStatus(WithStatus(l, s), s) == WithStatus(l, s)
  {
  }

  /** Of two entries with the same type and name, the later one wins. */
  lemma WithStatusLatestWins(l: Ledger, s1: ImportStatusEntry, s2: ImportStatusEntry)
    requires s1.name == s2.name && s1.statusType == s2.statusType
    ensures WithStatus(WithStatus(l, s1), s2) == WithStatus(l, s2)
  {
  }

  /**
   * Every entry sits in the map of its own type under its own name, so each
   * (type, name) pair has at most one entry.
   */
  ghost predicate Keyed(l: Ledger) {
    && (forall n :: n in l.data ==> l.data[n].name == n && l.data[n].statusType == DataImportStatusType)
    && (forall n :: n in l.target ==> l.target[n].name == n && l.target[n].statusType == TargetImportStatusType)
  }

  lemma WithStatusKeepsKeyed(l: Ledger, s: ImportStatusEntry)
    requires Keyed(l)
    ensures Keyed(WithStatus(l, s))
  {
  }

  /** Some key of a non-empty map. */
  ghost function AnyKey(m: map<string, ImportStatusEntry>): (k: string)
    requires m != map[]
    ensures k in m
  {
    var k :| k in m; k
  }

  /** The entries of a map, with multiplicity, in no particular order. */
  ghost function Values(m: map<string, ImportStatusEntry>): multiset<ImportStatusEntry>
    decreases m.Keys
  {
    if m == map[] then multiset{}
    else
      var k := AnyKey(m);
      Values(m - {k}) + multiset{m[k]}
  }

  /** Values does not depend on which key its definition picks first. */
  lemma {:induction false} ValuesRemove(m: map<string, ImportStatusEntry>, k: string)
    requires k in m
    ensures Values(m) == Values(m - {k}) + multiset{m[k]}
    decreases m.Keys
  {
    var j := AnyKey(m);
    if j != k {
      var rest := m - {j} - {k};
      assert rest == m - {k} - {j};
      ValuesRemove(m - {j}, k);
      ValuesRemove(m - {k}, j);
      calc {
        Values(m);
        Values(m - {j}) + multiset{m[j]};
        Values(rest) + multiset{m[k]} + multiset{m[j]};
        Values(rest) + multiset{m[j]} + multiset{m[k]};
        Values(m - {k}) + multiset{m[k]};
      }
    }
  }

  /** A map holds as many entries as keys. */
  lemma {:induction false} ValuesSize(m: map<string, ImportStatusEntry>)
    ensures |Values(m)| == |m|
    decreases m.Keys
  {
    if m != map[] {
      var k := AnyKey(m);
      ValuesSize(m - {k});
    }
  }

  /** Every entry of the map is among its values... */
  lemma {:induction false} ValuesHas(m: map<string, ImportStatusEntry>, k: string)
    requires k in m
    ensures m[k] in Values(m)
  {
    ValuesRemove(m, k);
  }

  /** ...and every value is the entry of some key. */
  lemma {:induction false} ValuesFrom(m: map<string, ImportStatusEntry>, x: ImportStatusEntry)
    requires x in Values(m)
    ensures exists k :: k in m && m[k] == x
    decreases m.Keys
  {
    var k := AnyKey(m);
    if m[k] != x {
      ValuesFrom(m - {k}, x);
    }
  }

  /** Appends the entries of `m`, in any order, to `states`. */
  method AppendValues(states: seq<ImportStatusEntry>, m: map<string, ImportStatusEntry>)
    returns (out: seq<ImportStatusEntry>)
    ensures |out| == |states| + |m|
    ensures out[..|states|] == states
    ensures multiset(out[|states|..]) == Values(m)
  {
    out := states;
    var rest := m;
    while rest != map[]
      invariant |states| <= |out| && |out| + |rest| == |states| + |m|
      invariant out[..|states|] == states
      invariant multiset(out[|states|..]) + Values(rest) == Values(m)
      decreases rest.Keys
    {
      var k :| k in rest;
      ValuesRemove(rest, k);
      assert (out + [rest[k]])[|states|..] == out[|states|..] + [rest[k]];
      out := out + [rest[k]];
      rest := rest - {k};
    }
  }

  /** The import status of one installation, updated in place. */
  class ImportStatus {
    var data: map<string, ImportStatusEntry>
    var target: map<string, ImportStatusEntry>

    function Model(): Ledger
      reads this
    {
      Ledger(data, target)
    }

    constructor (data: map<string, ImportStatusEntry>, target: map<string, ImportStatusEntry>)
      ensures Model() == Ledger(data, target)
    {
      this.data := data;
      this.target := target;
    }

    /** Writes `status` into the map its type selects. */
    method Set(status: ImportStatusEntry)
      modifies this
      ensures Model() == WithStatus(old(Model()), status)
    {
      if status.statusType == DataImportStatusType {
        data := data[status.name := status];
      }
      if status.statusType == TargetImportStatusType {
        target := target[status.name := status];
      }
    }

    method Update(state: ImportStatusEntry)
      modifies this
      ensures Model() == WithStatus(old(Model()), state)
    {
      Set(state);
    }

    /** All entries: those of the data map, then those of the target map. */
    method GetStatus() returns (states: seq<ImportStatusEntry>)
      ensures |states| == |data| + |target|
      ensures multiset(states[..|data|]) == Values(data)
      ensures multiset(states[|data|..]) == Values(target)
    {
      states := [];
      states := AppendValues(states, data);
      states := AppendValues(states, target);
    }

    /** The data entry stored under `name`, or the zero entry and an error. */
    method GetData(name: string) returns (state: ImportStatusEntry, err: Option<string>)
      ensures err.None? <==> name in data
      ensures name in data ==> state == data[name]
      ensures name !in data ==> state == ZeroStatus && err == Some(NotFoundMessage(name))
    {
      if name !in data {
        return ZeroStatus, Some(NotFoundMessage(name));
      }
      return data[name], None;
    }

    /** The target entry stored under `name`, or the zero entry and an error. */
    method GetTarget(name: string) returns (state: ImportStatusEntry, err: Option<string>)
      ensures err.None? <==> name in target
      ensures name in target ==> state == target[name]
      ensures name !in target ==> state == ZeroStatus && err == Some(NotFoundMessage(name))
    {
      if name !in target {
        return ZeroStatus, Some(NotFoundMessage(name));
      }
      return target[name], None;
    }
  }
}
