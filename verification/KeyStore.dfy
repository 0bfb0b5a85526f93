/** packages/cli/src/provider-config-utils.ts and the OAuth token persister of
    packages/cli/src/cli-main.ts: a provider's keys in their legacy and multi-key
    forms, and rotating the active one. */
module KeyStore {
  import opened Prelude

  // `name` is the key's label, a reserved word here
  datatype ApiKey = ApiKey(
    name: string,
    apiKey: string,
    createdAt: string,
    refreshToken: Option<string>,
    expiresAt: Option<string>,
    accountId: Option<string>)

  /** The key fields of a provider config; an absent field is None. */
  datatype Provider = Provider(
    apiKey: Option<string>,
    apiKeys: Option<seq<ApiKey>>,
    activeKey: Option<string>)

  datatype Credentials = Credentials(accessToken: string, refreshToken: string, expiresAt: string, accountId: Option<string>)

  predicate Given(s: Option<string>) { s.Some? && s.value != "" }

  function Normalize(p: Provider): seq<ApiKey> {
    if p.apiKeys.Some? && p.apiKeys.value != [] then p.apiKeys.value
    else if Given(p.apiKey) then [ApiKey("default", p.apiKey.value, "", None, None, None)]
    else []
  }

  function Find(keys: seq<ApiKey>, name: string): (at: Option<nat>)
    ensures at.Some? ==> at.value < |keys| && keys[at.value].name == name &&
                         forall j :: 0 <= j < at.value ==> keys[j].name != name
    ensures at == None <==> forall j :: 0 <= j < |keys| ==> keys[j].name != name
  {
    if keys == [] then None
    else if keys[0].name == name then Some(0)
    else match Find(keys[1..], name) case None => None case Some(i) => Some(i + 1)
  }

  function WriteBack(p: Provider, keys: seq<ApiKey>): Provider {
    if keys == [] then Provider(None, None, None)
    else
      var found := if p.activeKey.Some? then Find(keys, p.activeKey.value) else None;
      var active := if found.Some? then keys[found.value] else keys[0];
      Provider(None, Some(keys), if !Given(p.activeKey) || found == None then Some(active.name) else p.activeKey)
  }

  function Resolve(p: Provider): Option<string> {
    if p.apiKeys.Some? && p.apiKeys.value != [] then
      var found := if Given(p.activeKey) then Find(p.apiKeys.value, p.activeKey.value) else None;
      Some((if found.Some? then p.apiKeys.value[found.value] else p.apiKeys.value[0]).apiKey)
    else if Given(p.apiKey) then p.apiKey
    else None
  }

  /** Migrating to the multi-key form keeps the key that is in use, clears the legacy
      field, leaves `activeKey` naming a real key, and is done once and for all. */
  lemma MigrationKeepsActiveKey(p: Provider)
    ensures var q := WriteBack(p, Normalize(p));
      && Resolve(q) == Resolve(p)
      && q.apiKey == None && Normalize(q) == Normalize(p)
      && (Normalize(p) != [] ==> q.activeKey.Some? && Find(Normalize(p), q.activeKey.value).Some?)
      && WriteBack(q, Normalize(q)) == q
  {
  }

  /** The record the persister rotates, if it finds one. */
  function RotationTarget(p: Provider): (at: Option<nat>)
    ensures at.Some? ==> at.value < |Normalize(p)|
  {
    var keys := Normalize(p);
    if Given(p.activeKey) then Find(keys, p.activeKey.value)
    else if keys != [] then Some(0)
    else None
  }

  function Renewed(k: ApiKey, c: Credentials): ApiKey {
    k.(apiKey := c.accessToken, refreshToken := Some(c.refreshToken), expiresAt := Some(c.expiresAt),
       accountId := if Given(c.accountId) then c.accountId else k.accountId)
  }

  function Rotate(p: Provider, c: Credentials): Provider {
    match RotationTarget(p)
    case None => p
    case Some(i) => WriteBack(p, Normalize(p)[i := Renewed(Normalize(p)[i], c)])
  }

  /** Rotation rewrites one record and leaves the others alone; the new token is the
      one resolved exactly when a record was found (or the token was in use already). */
  lemma RotationTakesEffect(p: Provider, c: Credentials)
    ensures Resolve(Rotate(p, c)) == Some(c.accessToken) <==> RotationTarget(p).Some? || Resolve(p) == Some(c.accessToken)
    ensures RotationTarget(p).Some? ==>
              && |Normalize(Rotate(p, c))| == |Normalize(p)|
              && Normalize(Rotate(p, c))[RotationTarget(p).value] == Renewed(Normalize(p)[RotationTarget(p).value], c)
              && forall j :: 0 <= j < |Normalize(p)| && j != RotationTarget(p).value ==>
                   Normalize(Rotate(p, c))[j] == Normalize(p)[j]
    ensures RotationTarget(p) == None ==> Rotate(p, c) == p
  {
    if RotationTarget(p).Some? {
      var i, keys := RotationTarget(p).value, Normalize(p);
      var renewed := keys[i := Renewed(keys[i], c)];
      assert forall j :: 0 <= j < |keys| ==> renewed[j].name == keys[j].name;
    }
  }

  /** Field by field, the record keeps its label and its date, takes both tokens and the
      expiry, and the account id when one is given. */
  lemma RotationRewrites(p: Provider, c: Credentials)
    requires RotationTarget(p).Some?
    ensures var i := RotationTarget(p).value; var keys := Normalize(Rotate(p, c));
      && i < |keys|
      && keys[i].name == Normalize(p)[i].name && keys[i].createdAt == Normalize(p)[i].createdAt
      && keys[i].apiKey == c.accessToken && keys[i].refreshToken == Some(c.refreshToken)
      && keys[i].expiresAt == Some(c.expiresAt)
      && keys[i].accountId == if c.accountId == None || c.accountId == Some("") then Normalize(p)[i].accountId else c.accountId
  {
    RotationTakesEffect(p, c);
  }

  /** A single legacy key becomes the one record, labelled default and active. */
  lemma LegacyKeyIsMigrated(key: string, activeKey: Option<string>)
    requires key != ""
    ensures var p := Provider(Some(key), None, activeKey);
      WriteBack(p, Normalize(p)) == Provider(None, Some([ApiKey("default", key, "", None, None, None)]), Some("default"))
  {
  }

  /** A token is dropped on the floor exactly when there is no key at all, or the
      active label names none of them although a key is in use. */
  lemma RotationMisses(p: Provider)
    ensures RotationTarget(p) == None <==>
            Normalize(p) == [] || (Given(p.activeKey) && Find(Normalize(p), p.activeKey.value) == None)
    ensures Normalize(p) != [] ==> Resolve(p).Some?
  {
  }

  /** Smallest instance: a key in use under a label `activeKey` does not name. */
  lemma StaleLabelDropsToken(c: Credentials)
    requires c.accessToken != "old"
    ensures var p := Provider(None, Some([ApiKey("home", "old", "", None, None, None)]), Some("work"));
      Resolve(p) == Some("old") && Rotate(p, c) == p && Resolve(Rotate(p, c)) != Some(c.accessToken)
  {
  }

  /** A provider entry of the config object, changed field by field. */
  class ProviderConfig {
    var apiKey: Option<string>
    var apiKeys: Option<seq<ApiKey>>
    var activeKey: Option<string>

    ghost function Value(): Provider
      reads this
    {
      Provider(apiKey, apiKeys, activeKey)
    }

    constructor (p: Provider)
      ensures Value() == p
    {
      apiKey, apiKeys, activeKey := p.apiKey, p.apiKeys, p.activeKey;
    }

    method WriteKeysBack(keys: seq<ApiKey>)
      modifies this
      ensures Value() == WriteBack(old(Value()), keys)
    {
      if |keys| == 0 {
        apiKeys, apiKey, activeKey := None, None, None;
        return;
      }
      apiKeys := Some(keys);
      var found := if activeKey.Some? then Find(keys, activeKey.value) else None;
      var active := if found.Some? then keys[found.value] else keys[0];
      apiKey := None;
      if !Given(activeKey) || found == None {
        activeKey := Some(active.name);
      }
    }

    method PersistRotation(c: Credentials)
      modifies this
      ensures Value() == Rotate(old(Value()), c)
    {
      var keys := Normalize(Provider(apiKey, apiKeys, activeKey));
      var at := if Given(activeKey) then Find(keys, activeKey.value) else if |keys| > 0 then Some(0) else None;
      if at == None { return; }
      var active := keys[at.value];
      active := active.(apiKey := c.accessToken, refreshToken := Some(c.refreshToken), expiresAt := Some(c.expiresAt));
      if Given(c.accountId) { active := active.(accountId := c.accountId); }
      WriteKeysBack(keys[at.value := active]);
    }
  }
}
