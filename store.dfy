/** The integration's per-process state under `hass.data["bose_soundtouch"]`:
    the MAC-to-entity lookup (`mac_entity_lookup`), the zone-members cache
    keyed by master MAC (`zone_members_cache`) and the last selected source
    per device (`last_source_cache`). Each map is created empty on first use,
    which the constructor stands for. */
module Store {
  import opened Client

  class DomainData {
    var macLookup: map<string, string>
    var zoneCache: map<string, seq<ZoneMember>>
    var lastSource: map<string, string>

    constructor ()
      ensures macLookup == map[] && zoneCache == map[] && lastSource == map[]
    {
      macLookup, zoneCache, lastSource := map[], map[], map[];
    }
  }
}
