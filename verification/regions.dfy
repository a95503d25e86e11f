/** The map presets of the dashboard (frontend/src/config/regions.ts): one
    camera position per region key. */
module RegionConfig {

  /** Where the map flies to for a region: longitude and latitude of the
      centre, zoom level, and the caption shown (`label` in the source). */
  datatype RegionPreset = RegionPreset(longitude: real, latitude: real, zoom: real, caption: string)

  const Regions: map<string, RegionPreset> := map[
    "global"   := RegionPreset(0.0, 20.0, 1.5, "\U{5168}\U{7403}"),
    "apac"     := RegionPreset(115.0, 25.0, 3.0, "\U{4E9E}\U{592A}"),
    "europe"   := RegionPreset(15.0, 50.0, 3.5, "\U{6B50}\U{6D32}"),
    "americas" := RegionPreset(-90.0, 25.0, 2.5, "\U{7F8E}\U{6D32}"),
    "mena"     := RegionPreset(45.0, 28.0, 3.5, "\U{4E2D}\U{6771}\U{5317}\U{975E}"),
    "africa"   := RegionPreset(20.0, 0.0, 3.0, "\U{975E}\U{6D32}"),
    "seasia"   := RegionPreset(110.0, 5.0, 4.0, "\U{6771}\U{5357}\U{4E9E}"),
    "latam"    := RegionPreset(-60.0, -15.0, 3.0, "\U{62C9}\U{4E01}\U{7F8E}\U{6D32}")
  ]

  /** The eight region keys. */
  lemma RegionKeys()
    ensures Regions.Keys == {"global", "apac", "europe", "americas", "mena", "africa", "seasia", "latam"}
  {
  }
}
