/** The built-in table of known services offered when a subscription is created. */
module Presets {
  import opened Common
  import opened Categories

  datatype SubscriptionPreset = SubscriptionPreset(
    id: string,
    serviceName: string,
    iconName: string,
    category: SubscriptionCategory)

  /** `SubscriptionPresets.all`, in table order. */
  function AllPresets(): seq<SubscriptionPreset> {
    [ SubscriptionPreset("netflix", "Netflix", "play.rectangle.fill", Media),
      SubscriptionPreset("spotify", "Spotify", "music.note", Media),
      SubscriptionPreset("apple_music", "Apple Music", "apple.logo", Media),
      SubscriptionPreset("youtube", "YouTube Premium", "play.rectangle.fill", Media),
      SubscriptionPreset("disney", "Disney+", "film.fill", Media),
      SubscriptionPreset("icloud", "iCloud", "cloud.fill", Utilities),
      SubscriptionPreset("adobe", "Adobe Creative Cloud", "paintbrush.fill", Software),
      SubscriptionPreset("office", "Microsoft 365", "doc.fill", Software),
      SubscriptionPreset("custom", "Custom service", "plus.circle.fill", Other) ]
  }

  /** `SubscriptionPresets.preset(for:)`: the first preset with that id, or
      nothing when no preset has it. */
  function PresetFor(id: string): (r: Option<SubscriptionPreset>)
    ensures r.Some? ==> r.value.id == id && r.value in AllPresets()
    ensures r.Some? ==> exists k ::
      && 0 <= k < |AllPresets()| && AllPresets()[k] == r.value
      && forall j :: 0 <= j < k ==> AllPresets()[j].id != id
    ensures r.None? <==> forall p :: p in AllPresets() ==> p.id != id
  {
    var ps := AllPresets();
    match FirstIndex(ps, (p: SubscriptionPreset) => p.id == id)
    case Some(k) => Some(ps[k])
    case None => None
  }

  /** No two presets share an id. */
  lemma PresetIdsDistinct()
    ensures forall i, j :: 0 <= i < j < |AllPresets()| ==> AllPresets()[i].id != AllPresets()[j].id
  {
    var ps := AllPresets();
    forall i, j | 0 <= i < j < |ps| ensures ps[i].id != ps[j].id {
      assert ps[i].id[..2] != ps[j].id[..2] || |ps[i].id| != |ps[j].id| || ps[i].id[2..] != ps[j].id[2..];
    }
  }

  /** Since the ids are distinct, looking up any listed id returns exactly that preset. */
  lemma PresetLookupExact(p: SubscriptionPreset)
    requires p in AllPresets()
    ensures PresetFor(p.id) == Some(p)
  {
    PresetIdsDistinct();
    var ps := AllPresets();
    var r := PresetFor(p.id);
    var k :| 0 <= k < |ps| && ps[k] == r.value && forall j :: 0 <= j < k ==> ps[j].id != p.id;
    var i :| 0 <= i < |ps| && ps[i] == p;
    assert !(i < k);
    assert !(k < i);
  }

  /** The table starts with Netflix, the flow's initial choice, and has a
      "custom" entry in the `.other` category. */
  lemma PresetTableShape()
    ensures |AllPresets()| == 9 && AllPresets()[0].id == "netflix"
    ensures PresetFor("custom").Some? && PresetFor("custom").value.category == Other
    ensures PresetFor("custom").value.serviceName == "Custom service"
  {
    var ps := AllPresets();
    assert ps[8].id == "custom";
    PresetLookupExact(ps[8]);
  }

  /** Every preset names a service and an icon. */
  lemma PresetNamesNonEmpty(p: SubscriptionPreset)
    requires p in AllPresets()
    ensures p.serviceName != [] && p.iconName != []
  {
    var ps := AllPresets();
    var i :| 0 <= i < |ps| && ps[i] == p;
    assert |ps[i].serviceName| > 0 && |ps[i].iconName| > 0;
  }
}
