/**
 * The secrets-encryption settings of a cluster (cluster/encryption.go): the provider document
 * kube-apiserver reads, with its ordered key list whose first key is the active one, and the
 * enabled / custom flags of the cluster file.
 */
module EncryptionConfig {
  import opened Wrappers

  /** An AES-CBC key of the provider document (encryptionKey). */
  datatype Key = Key(name: string, secret: string)

  /**
   * The provider document, EncryptionConfig.EncryptionProviderFile, by how it was produced:
   * "" (Empty); the multi-key template with the keys in order, the first being the key new
   * secrets are written with (KeyList); the template that writes plain text but can still read
   * one key (Disabled); or a document taken from the user's custom configuration (Custom),
   * which is not interpreted beyond the first AES-CBC key of its first resource, present when
   * that resource's first provider is aescbc with at least one key.
   */
  datatype ProviderFile =
    | Empty
    | KeyList(keys: seq<Key>)
    | Disabled(key: Key)
    | Custom(document: string, activeKey: Option<Key>)

  /** Services.KubeAPI.SecretsEncryptionConfig: the enabled flag and the optional custom configuration. */
  datatype SecretsEncryptionConfig = SecretsEncryptionConfig(enabled: bool, customConfig: Option<string>)

  /**
   * The keys a document lets kube-apiserver decrypt with. Of a custom document only its first
   * AES-CBC key is known; whatever else it can decrypt with is not relied on.
   */
  function ReadKeys(f: ProviderFile): set<Key>
  {
    match f
    case Empty => {}
    case KeyList(keys) => set k | k in keys
    case Disabled(key) => {key}
    case Custom(_, activeKey) => if activeKey.Some? then {activeKey.value} else {}
  }

  /** How a secret is stored: in plain text, or encrypted with a key. */
  datatype Seal = Plain | Sealed(key: Key)

  /**
   * How kube-apiserver stores a secret it writes under document `f`: with the active key, if any.
   * A custom document whose first provider is not aescbc is taken to write plain text.
   */
  function WriteSeal(f: ProviderFile): Seal
  {
    if f.KeyList? && |f.keys| > 0 then Sealed(f.keys[0])
    else if f.Custom? && f.activeKey.Some? then Sealed(f.activeKey.value)
    else Plain
  }

  /** A secret stored as `s` can be read under document `f`; plain text is always readable. */
  predicate CanRead(s: Seal, f: ProviderFile)
  {
    s.Plain? || s.key in ReadKeys(f)
  }

  /** A secret written under a document can be read back under it. */
  lemma WriteThenRead(f: ProviderFile)
    ensures CanRead(WriteSeal(f), f)
  {
    if f.KeyList? && |f.keys| > 0 {
      assert f.keys[0] in f.keys;
    }
  }

  /**
   * The key new secrets are written with: the first AES-CBC key of the first provider of the
   * first resource, for a generated key list and for a custom document alike. The source indexes
   * the resource, provider and key without checks; every document without such a key is an
   * error here.
   */
  function ExtractActiveKey(f: ProviderFile): (r: Result<Key>)
    ensures r.Ok? <==> (f.KeyList? && |f.keys| > 0) || (f.Custom? && f.activeKey.Some?)
    ensures r.Ok? ==> WriteSeal(f) == Sealed(r.value) && r.value in ReadKeys(f)
    ensures f.Custom? && f.activeKey.Some? ==> r == Ok(f.activeKey.value)
  {
    if f.KeyList? && |f.keys| > 0 then Ok(f.keys[0])
    else if f.Custom? && f.activeKey.Some? then Ok(f.activeKey.value)
    else Err("encryption provider file has no active key")
  }

  /** IsEncryptionEnabled: the configuration is set and enabled. A nil cluster is passed as None. */
  predicate IsEncryptionEnabled(config: Option<SecretsEncryptionConfig>)
  {
    config.Some? && config.value.enabled
  }

  /** IsEncryptionCustomConfig: encryption is enabled and a custom configuration is given. */
  predicate IsEncryptionCustomConfig(config: Option<SecretsEncryptionConfig>)
  {
    IsEncryptionEnabled(config) && config.value.customConfig.Some?
  }

  /** What reconciling the encryption configuration does. */
  datatype Action =
    | NoAction          // return nil, change nothing
    | MarkRewrite       // set RewriteSecrets and return
    | DisableCustom     // blank the provider document and deploy it
    | DisableGenerated  // DisableSecretsEncryption

  /**
   * The decision of ReconcileEncryptionProviderConfig over the desired cluster's flag, the
   * current cluster's flags (a nil current cluster reads as disabled) and whether there are
   * control-plane hosts.
   */
  function Decide(hasControlPlane: bool, desired: Option<SecretsEncryptionConfig>,
                  current: Option<SecretsEncryptionConfig>): Action
  {
    if !hasControlPlane then NoAction
    else if !IsEncryptionEnabled(current) && IsEncryptionEnabled(desired) then MarkRewrite
    else if !IsEncryptionEnabled(desired) && !IsEncryptionEnabled(current) then NoAction
    else if !IsEncryptionEnabled(desired) && IsEncryptionEnabled(current) then
      if IsEncryptionCustomConfig(current) then DisableCustom else DisableGenerated
    else NoAction
  }

  /** The four-way decision, each case characterised by the flags. */
  lemma DecideCases(hasControlPlane: bool, desired: Option<SecretsEncryptionConfig>,
                    current: Option<SecretsEncryptionConfig>)
    ensures Decide(hasControlPlane, desired, current) == MarkRewrite <==>
      hasControlPlane && IsEncryptionEnabled(desired) && !IsEncryptionEnabled(current)
    ensures Decide(hasControlPlane, desired, current) == DisableCustom <==>
      hasControlPlane && !IsEncryptionEnabled(desired) && IsEncryptionCustomConfig(current)
    ensures Decide(hasControlPlane, desired, current) == DisableGenerated <==>
      hasControlPlane && !IsEncryptionEnabled(desired) && IsEncryptionEnabled(current)
      && !IsEncryptionCustomConfig(current)
    ensures Decide(hasControlPlane, desired, current) == NoAction <==>
      !hasControlPlane || IsEncryptionEnabled(desired) == IsEncryptionEnabled(current)
  {
  }

  /**
   * A custom configuration is never disabled by extracting its key and rewriting the secrets,
   * and never marked for a rewrite: once encryption is turned off its document is only blanked
   * and redeployed, and otherwise it is left alone.
   */
  lemma CustomConfigNeverRewritten(hasControlPlane: bool, desired: Option<SecretsEncryptionConfig>,
                                   current: Option<SecretsEncryptionConfig>)
    requires IsEncryptionCustomConfig(current)
    ensures Decide(hasControlPlane, desired, current) != DisableGenerated
    ensures Decide(hasControlPlane, desired, current) != MarkRewrite
    ensures Decide(hasControlPlane, desired, current) == DisableCustom <==>
      hasControlPlane && !IsEncryptionEnabled(desired)
  {
  }
}
