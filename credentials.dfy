/** The module-global API key list and rotation cursor of the two
    transcription clients (`API_KEYS`, `current_key_index`, `client`). */
module Credentials {

  class CredentialPool {
    /** `API_KEYS`: fixed when the module is loaded. */
    const keys: seq<string>
    /** `current_key_index` */
    var index: nat

    ghost predicate Valid()
      reads this
    {
      |keys| > 0 && index < |keys|
    }

    /** The key the current `client` was built with. */
    function CurrentKey(): (k: string)
      reads this
      requires Valid()
      ensures k in keys
    {
      keys[index]
    }

    /** Module initialisation: the key list and the starting cursor. */
    constructor (keys: seq<string>, start: nat)
      requires start < |keys|
      ensures Valid() && this.keys == keys && index == start
    {
      this.keys := keys;
      index := start;
    }

    /** `change_api_key`: advance the cursor by one, circularly, and rebuild
        the client from the key it now points at. */
    method ChangeApiKey()
      requires Valid()
      modifies this
      ensures Valid()
      ensures index == (old(index) + 1) % |keys|
      ensures index == Next(old(index), |keys|)
    {
      index := (index + 1) % |keys|;
      NextIsSuccessorMod(old(index), |keys|);
    }
  }

  /** One step of the circular cursor: the next slot, or back to the first
      after the last. */
  function Next(k: nat, count: nat): (r: nat)
    requires count > 0
    ensures r < count
  {
    if k + 1 < count then k + 1 else 0
  }

  /** `Next` is the `(index + 1) % len(keys)` step `change_api_key` takes. */
  lemma NextIsSuccessorMod(k: nat, count: nat)
    requires k < count
    ensures Next(k, count) == (k + 1) % count
  {
    if k + 1 == count {
      assert (k + 1) % count == 0;
    }
  }

  /** The cursor after `n` rotations from `start`. */
  function Advance(start: nat, n: nat, count: nat): (r: nat)
    requires count > 0 && start < count
    ensures r < count
    decreases n
  {
    if n == 0 then start else Next(Advance(start, n - 1, count), count)
  }
}
