/** The adapter registry (src/adapters/index.ts): one adapter per provider, created on first use
    and kept until the registry is cleared. The registry is a static map in the source; here it is
    an object that the stores are handed. */
module Adapters {
  import opened Types
  import opened UCloud

  /** A UCloud adapter: the endpoint it talks to. */
  class UCloudAdapter {
    const api: Api

    constructor (api: Api)
      ensures this.api == api
    {
      this.api := api;
    }
  }

  class AdapterFactory {
    var adapters: map<CloudProvider, UCloudAdapter>

    /** The endpoint new adapters are created for. */
    const network: Api

    /** Every stored adapter talks to the factory's endpoint. */
    ghost predicate Valid()
      reads this
    {
      forall p :: p in adapters ==> adapters[p].api == network
    }

    constructor (network: Api)
      ensures Valid()
      ensures adapters == map[] && this.network == network
    {
      adapters := map[];
      this.network := network;
    }

    /** `getAdapter`: the stored adapter of the provider, created and stored first when there is
        none. A second call with the same provider returns the same object and leaves the map as it
        is. Every provider of the enumeration is supported, so the error branch of the source
        cannot be reached. */
    method GetAdapter(provider: CloudProvider) returns (a: UCloudAdapter)
      requires Valid()
      modifies this
      ensures Valid()
      ensures a.api == network
      ensures provider in adapters && adapters[provider] == a
      ensures provider in old(adapters) ==> a == old(adapters)[provider] && adapters == old(adapters)
      ensures provider !in old(adapters) ==> fresh(a) && adapters == old(adapters)[provider := a]
    {
      if provider !in adapters {
        match provider
        case UCloud =>
          var created := new UCloudAdapter(network);
          adapters := adapters[provider := created];
      }
      a := adapters[provider];
    }

    /** `clearAdapters`: afterwards the next `GetAdapter` creates a fresh adapter. */
    method ClearAdapters()
      modifies this
      ensures adapters == map[]
      ensures Valid()
    {
      adapters := map[];
    }
  }
}
