/** The settings page keeps a record of settings, some of them grouped one level down
    (`notifications.*`, `maintenance.*`), and `updateSetting` writes one value at a dotted
    path by copying every record along the path. */
module SettingsPage {
  import opened Seqs
  import opened Text

  /** A value held by a setting: the form writes strings and booleans. */
  datatype Scalar = Text(s: string) | Flag(b: bool)

  /** A setting is a value or a record of named settings. */
  datatype Setting = Leaf(value: Scalar) | Group(fields: map<string, Setting>)

  type Record = map<string, Setting>

  /** `{ ...current[key] }`: the fields of the record under `key`; nothing there, or a plain
      value, spreads to an empty record. */
  function CopyOf(m: Record, key: string): (r: Record)
    ensures key in m && m[key].Group? ==> r == m[key].fields
    ensures !(key in m && m[key].Group?) ==> r == map[]
  {
    if key in m && m[key].Group? then m[key].fields else map[]
  }

  /** The record `updateSetting` returns for the segments `keys` of a path: every record on the
      way down is a copy, and the last segment receives the value. */
  function Put(m: Record, keys: seq<string>, v: Setting): (r: Record)
    requires |keys| >= 1
    ensures r.Keys == m.Keys + {keys[0]}
    ensures forall k :: k in m && k != keys[0] ==> r[k] == m[k]
    ensures |keys| == 1 ==> r[keys[0]] == v
    ensures |keys| > 1 ==> r[keys[0]].Group?
    decreases |keys|
  {
    if |keys| == 1 then m[keys[0] := v]
    else m[keys[0] := Group(Put(CopyOf(m, keys[0]), keys[1..], v))]
  }

  /** Reading a path: each segment but the last must name a record. */
  function Get(m: Record, keys: seq<string>): (r: Option<Setting>)
    ensures r.Some? ==> keys != [] && keys[0] in m
    ensures |keys| == 1 ==> (r.Some? <==> keys[0] in m)
    ensures |keys| == 1 && r.Some? ==> r.value == m[keys[0]]
    decreases |keys|
  {
    if keys == [] || keys[0] !in m then None
    else if |keys| == 1 then Some(m[keys[0]])
    else if m[keys[0]].Group? then Get(m[keys[0]].fields, keys[1..])
    else None
  }

  /** After the update, the path reads back the value written. */
  lemma {:induction false} GetAfterPut(m: Record, keys: seq<string>, v: Setting)
    requires |keys| >= 1
    ensures Get(Put(m, keys, v), keys) == Some(v)
    decreases |keys|
  {
    if |keys| > 1 {
      GetAfterPut(CopyOf(m, keys[0]), keys[1..], v);
    }
  }

  /** Two paths part ways: at some segment both have a name and the names differ, after a
      common prefix. */
  predicate Diverge(p: seq<string>, q: seq<string>)
    decreases |p|
  {
    |p| >= 1 && |q| >= 1 && (p[0] != q[0] || Diverge(p[1..], q[1..]))
  }

  /** Every setting on a path that parts ways with the written one reads as before. */
  lemma {:induction false} PutLeavesDivergingPaths(m: Record, keys: seq<string>, v: Setting, q: seq<string>)
    requires |keys| >= 1 && Diverge(keys, q)
    ensures Get(Put(m, keys, v), q) == Get(m, q)
    decreases |keys|
  {
    if keys[0] == q[0] && |keys| > 1 && |q| > 1 {
      PutLeavesDivergingPaths(CopyOf(m, keys[0]), keys[1..], v, q[1..]);
    }
  }

  /** Top-level keys other than the first segment keep their settings. */
  lemma PutLeavesOtherTopLevelKeys(m: Record, keys: seq<string>, v: Setting, k: string)
    requires |keys| >= 1 && k != keys[0]
    ensures k in Put(m, keys, v) <==> k in m
    ensures k in m ==> Put(m, keys, v)[k] == m[k]
  {
  }

  /** With a two-segment path, the other settings of the parent record stay, and the parent
      gains at most the written key. */
  lemma TwoSegmentKeepsSiblings(m: Record, parent: string, key: string, v: Setting)
    requires parent in m && m[parent].Group?
    ensures Put(m, [parent, key], v)[parent].Group?
    ensures Put(m, [parent, key], v)[parent].fields.Keys == m[parent].fields.Keys + {key}
    ensures forall sibling :: sibling in m[parent].fields && sibling != key ==>
              Put(m, [parent, key], v)[parent].fields[sibling] == m[parent].fields[sibling]
  {
    assert [parent, key][1..] == [key];
  }

  /** Writing the same value at the same path again changes nothing. */
  lemma {:induction false} PutIdempotent(m: Record, keys: seq<string>, v: Setting)
    requires |keys| >= 1
    ensures Put(Put(m, keys, v), keys, v) == Put(m, keys, v)
    decreases |keys|
  {
    if |keys| > 1 {
      PutIdempotent(CopyOf(m, keys[0]), keys[1..], v);
    }
  }

  /** `updateSetting`'s state updater. `spine[i]` is the copy of the record reached after `i`
      segments; the write into the deepest copy is then visible from the top because each
      copy was stored in its parent, which the second loop states as putting each copy back. */
  method UpdateSetting(prev: Record, path: string, value: Setting) returns (next: Record)
    ensures next == Put(prev, Split(path, '.'), value)
  {
    var keys := Split(path, '.');
    var spine := [prev];
    var i := 0;
    while i < |keys| - 1
      invariant 0 <= i <= |keys| - 1
      invariant |spine| == i + 1 && spine[0] == prev
      invariant forall k :: 0 <= k < i ==> spine[k + 1] == CopyOf(spine[k], keys[k])
    {
      spine := spine + [CopyOf(spine[i], keys[i])];
      i := i + 1;
    }
    var current := spine[i][keys[i] := value];
    assert keys[i..] == [keys[i]];
    while i > 0
      invariant 0 <= i <= |keys| - 1
      invariant current == Put(spine[i], keys[i..], value)
    {
      i := i - 1;
      assert keys[i..][1..] == keys[i + 1..];
      current := spine[i][keys[i] := Group(current)];
    }
    next := current;
  }

  /** The page's initial settings. */
  function InitialSettings(): (r: Record)
    ensures forall k :: k in r && r[k].Group? ==> k == "notifications" || k == "maintenance"
    ensures forall k :: k in r && r[k].Group? ==> forall j :: j in r[k].fields ==> r[k].fields[j].Leaf?
    ensures "notifications" in r && r["notifications"].Group? && "maintenance" in r && r["maintenance"].Group?
  {
    map[
    "siteName" := Leaf(Text("TATS")),
    "siteDescription" := Leaf(Text("Teknik Servis Yönetim Sistemi")),
    "contactEmail" := Leaf(Text("info@teknoasteknoloji.com")),
    "contactPhone" := Leaf(Text("+90 555 123 4567")),
    "address" := Leaf(Text("İstanbul, Türkiye")),
    "notifications" := Group(map[
      "emailNotifications" := Leaf(Flag(true)),
      "smsNotifications" := Leaf(Flag(false)),
      "pushNotifications" := Leaf(Flag(true))]),
    "maintenance" := Group(map[
      "maintenanceMode" := Leaf(Flag(false)),
      "maintenanceMessage" := Leaf(Text("Sistem bakımda. Lütfen daha sonra tekrar deneyin."))])]
  }

  /** The form's path for the SMS box splits into its group and its key. */
  lemma SmsPathSegments()
    ensures Split("notifications.smsNotifications", '.') == ["notifications", "smsNotifications"]
  {
    var keys := ["notifications", "smsNotifications"];
    SplitJoin(keys, '.');
    assert Join(keys, '.') == "notifications.smsNotifications";
  }

  /** Ticking the SMS box on the initial settings turns it on and keeps the other two
      notification flags and the site name. */
  lemma SmsToggleScenario()
    ensures var next := Put(InitialSettings(), ["notifications", "smsNotifications"], Leaf(Flag(true)));
            && Get(next, ["notifications", "smsNotifications"]) == Some(Leaf(Flag(true)))
            && Get(next, ["notifications", "emailNotifications"]) == Some(Leaf(Flag(true)))
            && Get(next, ["notifications", "pushNotifications"]) == Some(Leaf(Flag(true)))
            && next["siteName"] == Leaf(Text("TATS"))
  {
    var keys := ["notifications", "smsNotifications"];
    TwoSegmentKeepsSiblings(InitialSettings(), "notifications", "smsNotifications", Leaf(Flag(true)));
    GetAfterPut(InitialSettings(), keys, Leaf(Flag(true)));
  }

  /** The page state: the settings record, replaced by each update. */
  class Page {
    var settings: Record

    constructor ()
      ensures settings == InitialSettings()
    {
      settings := InitialSettings();
    }

    /** `setSettings(prev => ...)` with the updater above. */
    method Update(path: string, value: Setting)
      modifies this
      ensures settings == Put(old(settings), Split(path, '.'), value)
    {
      settings := UpdateSetting(settings, path, value);
    }
  }
}
