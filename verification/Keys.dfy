// The search keys that outputs and spends are listed under (idx/keys.go, evt/evt.go), and how
// the stores gather them.
module Keys {
  import opened Common

  datatype Spend = Spend(outpoint: Outpoint, owners: seq<string>)

  function OwnerKey(owner: string): string {
    "own:" + owner
  }

  function TagKey(tag: string): string {
    "tag:" + tag
  }

  function EventKey(tag: string, event: (string, string)): string {
    "evt:" + tag + ":" + event.0 + ":" + event.1
  }

  // Owner keys are apart from each other and from all other keys.
  lemma {:induction false} KeysApart(owner: string, other: string, tag: string, event: (string, string))
    ensures OwnerKey(owner) == OwnerKey(other) <==> owner == other
    ensures OwnerKey(owner) != TagKey(tag) && OwnerKey(owner) != EventKey(tag, event)
  {
    assert OwnerKey(owner)[4..] == owner && OwnerKey(other)[4..] == other;
    assert OwnerKey(owner)[0] == 'o' && TagKey(tag)[0] == 't' && EventKey(tag, event)[0] == 'e';
  }

  function OwnerKeys(owners: seq<string>): set<string> {
    set i | 0 <= i < |owners| && owners[i] != "" :: OwnerKey(owners[i])
  }

  lemma {:induction false} OwnerKeysNext(owners: seq<string>, i: nat)
    requires i < |owners|
    ensures OwnerKeys(owners[..i + 1]) ==
            OwnerKeys(owners[..i]) + (if owners[i] != "" then {OwnerKey(owners[i])} else {})
  {
    assert forall j :: 0 <= j < i ==> owners[..i + 1][j] == owners[..i][j];
  }

  function DataKeys(data: map<string, set<(string, string)>>): set<string> {
    (set tag | tag in data :: TagKey(tag)) +
    (set tag, event | tag in data && event in data[tag] :: EventKey(tag, event))
  }

  function Outpoints(spends: seq<Spend>): set<Outpoint> {
    set i | 0 <= i < |spends| :: spends[i].outpoint
  }

  function SpendKeys(spends: seq<Spend>): set<string> {
    set i, j | 0 <= i < |spends| && 0 <= j < |spends[i].owners| && spends[i].owners[j] != "" ::
      OwnerKey(spends[i].owners[j])
  }

  lemma {:induction false} SpendKeysNext(rows: seq<Spend>, i: nat)
    requires i < |rows|
    ensures SpendKeys(rows[..i + 1]) == SpendKeys(rows[..i]) + OwnerKeys(rows[i].owners)
    ensures Outpoints(rows[..i + 1]) == Outpoints(rows[..i]) + {rows[i].outpoint}
  {
    var more, some := rows[..i + 1], rows[..i];
    assert forall j :: 0 <= j < i ==> more[j] == some[j];
    assert more[i] == rows[i];
  }

  /** The same, said key by key */

  predicate NamesOwner(owners: seq<string>, key: string) {
    exists i :: 0 <= i < |owners| && owners[i] != "" && key == OwnerKey(owners[i])
  }

  predicate NamesData(data: map<string, set<(string, string)>>, key: string) {
    || (exists tag :: tag in data && key == TagKey(tag))
    || (exists tag, event :: tag in data && event in data[tag] && key == EventKey(tag, event))
  }

  predicate SpendsOutput(rows: seq<Spend>, o: Outpoint) {
    exists i :: 0 <= i < |rows| && rows[i].outpoint == o
  }

  predicate SpendsFrom(rows: seq<Spend>, key: string) {
    exists i :: 0 <= i < |rows| && NamesOwner(rows[i].owners, key)
  }

  lemma {:induction false} NamedKeys(data: map<string, set<(string, string)>>, owners: seq<string>, key: string)
    ensures key in DataKeys(data) <==> NamesData(data, key)
    ensures key in OwnerKeys(owners) <==> NamesOwner(owners, key)
  {
  }

  lemma {:induction false} SpentOutputs(rows: seq<Spend>, o: Outpoint)
    ensures o in Outpoints(rows) <==> SpendsOutput(rows, o)
  {
  }

  lemma {:induction false} SpentKeys(rows: seq<Spend>, key: string)
    ensures key in SpendKeys(rows) <==> SpendsFrom(rows, key)
  {
    if SpendsFrom(rows, key) {
      var i :| 0 <= i < |rows| && NamesOwner(rows[i].owners, key);
      var j :| 0 <= j < |rows[i].owners| && rows[i].owners[j] != "" && key == OwnerKey(rows[i].owners[j]);
      assert OwnerKey(rows[i].owners[j]) in SpendKeys(rows);
    }
    if key in SpendKeys(rows) {
      var i, j :| 0 <= i < |rows| && 0 <= j < |rows[i].owners| && rows[i].owners[j] != "" &&
                  OwnerKey(rows[i].owners[j]) == key;
      assert NamesOwner(rows[i].owners, key);
    }
  }

  // The tag, event and owner keys of an output, tags in any order.
  method CollectEvents(data: map<string, set<(string, string)>>, owners: seq<string>) returns (events: seq<string>)
    ensures Elems(events) == DataKeys(data) + OwnerKeys(owners)
  {
    events := [];
    var tags := data.Keys;
    while tags != {}
      invariant tags <= data.Keys
      invariant Elems(events) == DataKeys(data - tags)
    {
      var tag :| tag in tags;
      events := CollectTag(data, tags, tag, events);
      tags := tags - {tag};
    }
    assert data - {} == data;
    ghost var dataKeys := Elems(events);
    for i: nat := 0 to |owners|
      invariant Elems(events) == dataKeys + OwnerKeys(owners[..i])
    {
      OwnerKeysNext(owners, i);
      if owners[i] != "" {
        ElemsSnoc(events, OwnerKey(owners[i]));
        events := events + [OwnerKey(owners[i])];
      }
    }
    assert owners[..|owners|] == owners;
  }

  method CollectTag(data: map<string, set<(string, string)>>, tags: set<string>, tag: string,
                    events: seq<string>) returns (more: seq<string>)
    requires tag in tags && tags <= data.Keys && Elems(events) == DataKeys(data - tags)
    ensures Elems(more) == DataKeys(data - (tags - {tag}))
  {
    ElemsSnoc(events, TagKey(tag));
    more := events + [TagKey(tag)];
    var rest := data[tag];
    while rest != {}
      invariant rest <= data[tag]
      invariant Elems(more) ==
                DataKeys(data - tags) + {TagKey(tag)} + (set event | event in data[tag] - rest :: EventKey(tag, event))
    {
      var event :| event in rest;
      ElemsSnoc(more, EventKey(tag, event));
      assert data[tag] - (rest - {event}) == data[tag] - rest + {event};
      more := more + [EventKey(tag, event)];
      rest := rest - {event};
    }
    assert DataKeys(data - (tags - {tag})) ==
           DataKeys(data - tags) + {TagKey(tag)} + (set event | event in data[tag] :: EventKey(tag, event));
  }

  method CollectSpends(rows: seq<Spend>) returns (os: set<Outpoint>, keys: seq<string>)
    ensures os == Outpoints(rows) && Elems(keys) == SpendKeys(rows)
  {
    os, keys := {}, [];
    for i: nat := 0 to |rows|
      invariant os == Outpoints(rows[..i]) && Elems(keys) == SpendKeys(rows[..i])
    {
      SpendKeysNext(rows, i);
      os := os + {rows[i].outpoint};
      ghost var before := keys;
      for j: nat := 0 to |rows[i].owners|
        invariant Elems(keys) == Elems(before) + OwnerKeys(rows[i].owners[..j])
      {
        OwnerKeysNext(rows[i].owners, j);
        if rows[i].owners[j] != "" {
          ElemsSnoc(keys, OwnerKey(rows[i].owners[j]));
          keys := keys + [OwnerKey(rows[i].owners[j])];
        }
      }
      assert rows[i].owners[..|rows[i].owners|] == rows[i].owners;
    }
    assert rows[..|rows|] == rows;
  }
}
