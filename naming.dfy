/** How every entity of the integration is named (the same lines in each platform). */
module EntityNaming {
  import opened PyBuiltins
  import Const

  /** f"{DOMAIN}_{entry_id}_{key}" */
  function UniqueId(entryId: string, key: string): (id: string)
    ensures StartsWith(id, Const.Domain + "_" + entryId + "_")
  {
    Const.Domain + "_" + entryId + "_" + key
  }

  /** `key.lower()` */
  function TranslationKey(key: string): (t: string)
    ensures |t| == |key|
    ensures forall i :: 0 <= i < |t| ==> !('A' <= t[i] <= 'Z')
    ensures forall i :: 0 <= i < |key| && !('A' <= key[i] <= 'Z') ==> t[i] == key[i]
    ensures forall i :: 0 <= i < |key| && 'A' <= key[i] <= 'Z' ==> t[i] as int == key[i] as int + 32
  {
    Lower(key)
  }

  /** A translation key is already lower-case. */
  lemma TranslationKeyIdempotent(key: string)
    ensures TranslationKey(TranslationKey(key)) == TranslationKey(key)
  {
  }

  /** Within one config entry, distinct keys give distinct unique ids. */
  lemma UniqueIdInjective(entryId: string, k1: string, k2: string)
    requires UniqueId(entryId, k1) == UniqueId(entryId, k2)
    ensures k1 == k2
  {
  }
}
