/** The catalogue configuration with write-only secrets (catalog/services.py). */
module CatalogConfig {
  import opened Wrappers
  import opened Json

  const MASK := Str("\U{2022}\U{2022}\U{2022}\U{2022}\U{2022}\U{2022}\U{2022}\U{2022}")

  const SECRETS: seq<string> := ["token", "user_key"]

  type Entry = map<string, Value>

  /** The stored singleton. */
  datatype Config = Config(
    pushovers: map<string, Entry>, networks: map<string, Value>, defaultPushover: string, defaultNetwork: string)

  /** A write request; entries may be any JSON. */
  datatype Payload = Payload(
    pushovers: map<string, Value>, networks: map<string, Value>, defaultPushover: string, defaultNetwork: string)

  datatype Update = Updated(config: Config) | BadEntry | NoSuchPushover | NoSuchNetwork | Refused

  // ---------------------------------------------------------------- reading

  function MaskSecret(e: Entry, secret: string): Entry {
    if secret in e && Truthy(e[secret]) then e[secret := MASK] else e
  }

  function MaskEntry(e: Entry): Entry {
    MaskSecret(MaskSecret(e, "token"), "user_key")
  }

  /** The read view, as the payload a client would send back. */
  function Get(c: Config): Payload {
    var masked := map key | key in c.pushovers :: Obj(MaskEntry(c.pushovers[key]));
    Payload(masked, c.networks, c.defaultPushover, c.defaultNetwork)
  }

  // ---------------------------------------------------------------- writing

  predicate IsReal(e: Entry, secret: string) {
    secret in e && Truthy(e[secret]) && e[secret] != MASK
  }

  /** A real new value stays; otherwise the stored one is kept, and without one the
      field is dropped. */
  function MergeSecret(e: Entry, previous: Entry, secret: string): Entry {
    if IsReal(e, secret) then e
    else if secret in previous && Truthy(previous[secret]) then e[secret := previous[secret]]
    else e - {secret}
  }

  function MergeEntry(e: Entry, previous: Entry): Entry {
    MergeSecret(MergeSecret(e, previous, "token"), previous, "user_key")
  }

  /** `dict(entry or {})`. */
  function EntryOf(v: Value): Option<Entry> {
    if v.Obj? then Some(v.fields) else if !Truthy(v) then Some(map[]) else None
  }

  predicate ReadableEntries(p: Payload) {
    forall key :: key in p.pushovers ==> EntryOf(p.pushovers[key]).Some?
  }

  function Previous(c: Config, key: string): Entry {
    if key in c.pushovers then c.pushovers[key] else map[]
  }

  function Merged(c: Config, p: Payload): map<string, Entry>
    requires ReadableEntries(p)
  {
    map key | key in p.pushovers :: MergeEntry(EntryOf(p.pushovers[key]).value, Previous(c, key))
  }

  function Written(c: Config, p: Payload): Config
    requires ReadableEntries(p)
  {
    Config(Merged(c, p), p.networks, p.defaultPushover, p.defaultNetwork)
  }

  /** `update_catalog_config`. `accepts` is the validation of the whole document the
      configuration is mirrored into; when it fails the transaction is rolled back. */
  function Put(c: Config, p: Payload, accepts: Config -> bool): Update {
    if !ReadableEntries(p) then BadEntry
    else if p.defaultPushover != "" && p.defaultPushover !in p.pushovers then NoSuchPushover
    else if p.defaultNetwork != "" && p.defaultNetwork !in p.networks then NoSuchNetwork
    else if !accepts(Written(c, p)) then Refused
    else Updated(Written(c, p))
  }

  // ---------------------------------------------------------------- laws

  predicate IsSecret(name: string) {
    name == "token" || name == "user_key"
  }

  /** No stored secret is blank or the mask. */
  predicate CleanEntry(e: Entry) {
    forall name :: name in e && IsSecret(name) ==> IsReal(e, name)
  }

  /** ... and each non-empty default names an existing entry. */
  predicate Clean(c: Config) {
    && (forall key :: key in c.pushovers ==> CleanEntry(c.pushovers[key]))
    && (c.defaultPushover != "" ==> c.defaultPushover in c.pushovers)
    && (c.defaultNetwork != "" ==> c.defaultNetwork in c.networks)
  }

  /** What a merged entry holds, field by field: a real new secret, else the stored one,
      else nothing; and every other field as sent. */
  lemma MergeKeepsSecrets(e: Entry, previous: Entry, name: string)
    ensures var m := MergeEntry(e, previous);
            if !IsSecret(name) || IsReal(e, name) then (name in m <==> name in e) && (name in e ==> m[name] == e[name])
            else if name in previous && Truthy(previous[name]) then name in m && m[name] == previous[name]
            else name !in m
  {
    assert "token" != "user_key" by { assert |"token"| != |"user_key"|; }
  }

  lemma MergeIsClean(e: Entry, previous: Entry)
    requires CleanEntry(previous)
    ensures CleanEntry(MergeEntry(e, previous))
  {
    var m := MergeEntry(e, previous);
    forall name | name in m && IsSecret(name) ensures IsReal(m, name) {
      MergeKeepsSecrets(e, previous, name);
    }
  }

  /** A successful update of a clean configuration is clean. */
  lemma PutKeepsClean(c: Config, p: Payload, accepts: Config -> bool)
    requires Clean(c) && Put(c, p, accepts).Updated?
    ensures Clean(Put(c, p, accepts).config)
  {
    var m := Merged(c, p);
    forall key | key in m ensures CleanEntry(m[key]) {
      MergeIsClean(EntryOf(p.pushovers[key]).value, Previous(c, key));
    }
  }

  /** A request to update, and what the validation of the whole document answers at that
      time: the scenarios in it change between requests. */
  datatype Change = Change(payload: Payload, accepts: Config -> bool)

  /** The stored configuration after a sequence of requests; failed ones change nothing. */
  function PutAll(c: Config, changes: seq<Change>): Config {
    if changes == [] then c
    else
      var before, last := PutAll(c, changes[..|changes| - 1]), changes[|changes| - 1];
      var r := Put(before, last.payload, last.accepts);
      if r.Updated? then r.config else before
  }

  lemma {:induction false} EveryHistoryIsClean(c: Config, changes: seq<Change>)
    requires Clean(c)
    ensures Clean(PutAll(c, changes))
  {
    if changes != [] {
      EveryHistoryIsClean(c, changes[..|changes| - 1]);
      var before, last := PutAll(c, changes[..|changes| - 1]), changes[|changes| - 1];
      if Put(before, last.payload, last.accepts).Updated? { PutKeepsClean(before, last.payload, last.accepts); }
    }
  }

  /** No stored secret is present but blank. */
  predicate NoBlanks(e: Entry) {
    forall name :: name in e && IsSecret(name) ==> Truthy(e[name])
  }

  lemma MaskFields(e: Entry, name: string)
    ensures var m := MaskEntry(e);
            && (name in m <==> name in e)
            && (name in e ==> m[name] == if IsSecret(name) && Truthy(e[name]) then MASK else e[name])
  {
    assert "token" != "user_key" by { assert |"token"| != |"user_key"|; }
  }

  /** Merging an entry's own masked view gives the entry back exactly when it has no
      blank secret. */
  lemma MergeOfMask(e: Entry)
    ensures MergeEntry(MaskEntry(e), e) == e <==> NoBlanks(e)
  {
    var m := MaskEntry(e);
    var r := MergeEntry(m, e);
    forall name
      ensures !(IsSecret(name) && name in e && !Truthy(e[name])) ==>
                (name in r <==> name in e) && (name in e ==> r[name] == e[name])
      ensures IsSecret(name) && name in e && !Truthy(e[name]) ==> name !in r
    {
      MaskFields(e, name);
      MergeKeepsSecrets(m, e, name);
    }
    if NoBlanks(e) { assert r.Keys == e.Keys; }
  }

  /** Writing back what was read changes nothing exactly when no stored secret is blank.
      (A stored mask would survive too.) */
  lemma GetPut(c: Config)
    ensures ReadableEntries(Get(c))
    ensures Written(c, Get(c)) == c <==> forall key :: key in c.pushovers ==> NoBlanks(c.pushovers[key])
  {
    var p := Get(c);
    var m := Merged(c, p);
    assert m.Keys == c.pushovers.Keys;
    forall key | key in c.pushovers ensures m[key] == c.pushovers[key] <==> NoBlanks(c.pushovers[key]) {
      MergeOfMask(c.pushovers[key]);
    }
  }

  /** In a clean state writing back what was read is refused only by the document
      validation, and otherwise leaves the stored configuration unchanged. */
  lemma GetPutFromClean(c: Config, accepts: Config -> bool)
    requires Clean(c)
    ensures Put(c, Get(c), accepts) == if accepts(c) then Updated(c) else Refused
  {
    GetPut(c);
    forall key | key in c.pushovers ensures NoBlanks(c.pushovers[key]) {
      assert CleanEntry(c.pushovers[key]);
    }
  }

  /** Sending the same payload twice is sending it once. */
  lemma PutPut(c: Config, p: Payload)
    requires ReadableEntries(p)
    ensures Written(Written(c, p), p) == Written(c, p)
  {
    var once, twice := Merged(c, p), Merged(Written(c, p), p);
    forall key | key in p.pushovers ensures twice[key] == once[key] {
      MergeTwice(EntryOf(p.pushovers[key]).value, Previous(c, key));
    }
    assert twice.Keys == once.Keys;
  }

  lemma MergeTwice(e: Entry, previous: Entry)
    ensures MergeEntry(e, MergeEntry(e, previous)) == MergeEntry(e, previous)
  {
    var once := MergeEntry(e, previous);
    var twice := MergeEntry(e, once);
    forall name ensures (name in twice <==> name in once) && (name in once ==> twice[name] == once[name]) {
      MergeKeepsSecrets(e, previous, name);
      MergeKeepsSecrets(e, once, name);
    }
    assert twice.Keys == once.Keys;
  }

  /** What an update stores under a field: of a secret the real new one, else the one stored
      before, else nothing; of any other field what was sent. */
  ghost predicate FieldStored(sent: Entry, before: Entry, stored: Entry, name: string) {
    var isNew := name in sent && (IsSecret(name) ==> Truthy(sent[name]) && sent[name] != MASK);
    if isNew then name in stored && stored[name] == sent[name]
    else if IsSecret(name) && name in before && Truthy(before[name]) then name in stored && stored[name] == before[name]
    else name !in stored
  }

  /** ... field by field; a blank entry counts as an empty object. */
  ghost predicate EntryStored(sent: Value, before: Entry, stored: Entry) {
    var fields := if sent.Obj? then sent.fields else map[];
    forall name :: FieldStored(fields, before, stored, name)
  }

  lemma EntryIsStored(sent: Value, before: Entry)
    requires EntryOf(sent).Some?
    ensures EntryStored(sent, before, MergeEntry(EntryOf(sent).value, before))
  {
    var e: Entry := if sent.Obj? then sent.fields else map[];
    forall name ensures FieldStored(e, before, MergeEntry(e, before), name) { MergeKeepsSecrets(e, before, name); }
  }

  /** An update stores what was sent: exactly the pushovers of the payload, so that one left out
      is removed, with their fields; its networks and its defaults as they are. It succeeds
      exactly when entries are objects or blank, each non-empty default names an entry, and
      the document validates. */
  lemma UpdateStoresThePayload(c: Config, p: Payload, accepts: Config -> bool)
    ensures Put(c, p, accepts).Updated? <==>
              && (forall key :: key in p.pushovers ==> p.pushovers[key].Obj? || !Truthy(p.pushovers[key]))
              && (p.defaultPushover == "" || p.defaultPushover in p.pushovers)
              && (p.defaultNetwork == "" || p.defaultNetwork in p.networks)
              && accepts(Written(c, p))
    ensures Put(c, p, accepts).Updated? ==>
              var c' := Put(c, p, accepts).config;
              && c'.pushovers.Keys == p.pushovers.Keys && c'.networks == p.networks
              && c'.defaultPushover == p.defaultPushover && c'.defaultNetwork == p.defaultNetwork
              && forall key :: key in p.pushovers ==>
                   EntryStored(p.pushovers[key], if key in c.pushovers then c.pushovers[key] else map[],
                               c'.pushovers[key])
  {
    if Put(c, p, accepts).Updated? {
      forall key | key in p.pushovers
        ensures EntryStored(p.pushovers[key], Previous(c, key), Merged(c, p)[key])
      {
        EntryIsStored(p.pushovers[key], Previous(c, key));
      }
    }
  }

  /** The read view shows every entry, every network and the defaults, and all fields but the
      secrets as stored. */
  lemma GetShowsTheRest(c: Config)
    ensures var p := Get(c);
            && p.networks == c.networks
            && p.defaultPushover == c.defaultPushover && p.defaultNetwork == c.defaultNetwork
            && p.pushovers.Keys == c.pushovers.Keys
            && forall key, name :: key in c.pushovers && !IsSecret(name) ==>
                 && p.pushovers[key].Obj? && (name in p.pushovers[key].fields <==> name in c.pushovers[key])
                 && (name in c.pushovers[key] ==> p.pushovers[key].fields[name] == c.pushovers[key][name])
  {
    forall key, name | key in c.pushovers && !IsSecret(name)
      ensures var e, shown := c.pushovers[key], MaskEntry(c.pushovers[key]);
              (name in shown <==> name in e) && (name in e ==> shown[name] == e[name])
    {
      MaskFields(c.pushovers[key], name);
    }
  }

  /** The read view shows of a secret only whether there is one. */
  lemma GetShowsNoSecret(c: Config, key: string, name: string)
    requires key in c.pushovers && IsSecret(name)
    ensures var shown := Get(c).pushovers[key];
            shown.Obj? && (name in shown.fields ==> shown.fields[name] == MASK || !Truthy(shown.fields[name]))
  {
    MaskFields(c.pushovers[key], name);
  }

  // ---------------------------------------------------------------- the service

  /** The service over the stored singleton. */
  class CatalogService {
    var config: Config

    constructor (config: Config)
      ensures this.config == config
    {
      this.config := config;
    }

    /** `get_catalog_config`. */
    method GetCatalogConfig() returns (p: Payload)
      ensures p == Get(config)
    {
      var masked: map<string, Value> := map[];
      var keys := config.pushovers.Keys;
      while keys != {}
        invariant keys <= config.pushovers.Keys
        invariant masked == map key | key in config.pushovers && key !in keys :: Obj(MaskEntry(config.pushovers[key]))
        decreases keys
      {
        var key :| key in keys;
        var entry := config.pushovers[key];
        for i := 0 to |SECRETS|
          invariant MaskRest(entry, i) == MaskEntry(config.pushovers[key])
        {
          if SECRETS[i] in entry && Truthy(entry[SECRETS[i]]) { entry := entry[SECRETS[i] := MASK]; }
        }
        masked := masked[key := Obj(entry)];
        keys := keys - {key};
      }
      p := Payload(masked, config.networks, config.defaultPushover, config.defaultNetwork);
    }

    /** `update_catalog_config`. */
    method UpdateCatalogConfig(p: Payload, accepts: Config -> bool) returns (r: Update)
      modifies this
      ensures r == Put(old(config), p, accepts)
      ensures config == if r.Updated? then r.config else old(config)
    {
      var merged: map<string, Entry> := map[];
      var keys := p.pushovers.Keys;
      while keys != {}
        invariant keys <= p.pushovers.Keys
        invariant forall key :: key in p.pushovers && key !in keys ==> EntryOf(p.pushovers[key]).Some?
        invariant merged.Keys == p.pushovers.Keys - keys
        invariant forall key :: key in merged ==>
                    merged[key] == MergeEntry(EntryOf(p.pushovers[key]).value, Previous(config, key))
        decreases keys
      {
        var key :| key in keys;
        var read := EntryOf(p.pushovers[key]);
        if read.None? { return BadEntry; }
        var entry, previous := read.value, Previous(config, key);
        for i := 0 to |SECRETS|
          invariant MergeRest(entry, previous, i) == MergeEntry(read.value, previous)
        {
          entry := MergeSecret(entry, previous, SECRETS[i]);
        }
        merged := merged[key := entry];
        keys := keys - {key};
      }
      assert merged == Merged(config, p);
      if p.defaultPushover != "" && p.defaultPushover !in merged { return NoSuchPushover; }
      if p.defaultNetwork != "" && p.defaultNetwork !in p.networks { return NoSuchNetwork; }
      var saved := config;
      config := Config(merged, p.networks, p.defaultPushover, p.defaultNetwork);
      if !accepts(config) {
        config := saved;
        return Refused;
      }
      r := Updated(config);
    }
  }

  /** What the secrets loop still does from its round `i` on. */
  function MaskRest(e: Entry, i: nat): Entry {
    if i == 0 then MaskSecret(MaskSecret(e, "token"), "user_key") else if i == 1 then MaskSecret(e, "user_key") else e
  }

  function MergeRest(e: Entry, previous: Entry, i: nat): Entry {
    if i == 0 then MergeSecret(MergeSecret(e, previous, "token"), previous, "user_key")
    else if i == 1 then MergeSecret(e, previous, "user_key")
    else e
  }
}
