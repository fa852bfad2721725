/** The static demo catalogue shown before the back end answers: six media
    items, the featured one, the row of items already started and the
    trending row. */
module Catalog {
  import opened Wrappers

  datatype MediaType = Film | Serie

  /** `progress` is the watched fraction, absent for items never started. */
  datatype MediaItem = MediaItem(
    id: string, title: string, mediaType: MediaType, year: int, duration: string, rating: string,
    tags: seq<string>, synopsis: string, accent: string, art: string, progress: Option<real>)

  const HelixDrift := MediaItem(
    "helix-drift", "Helix Drift", Serie, 2025, "8 x 45m", "16+", ["Sci-Fi", "Thriller", "Neo-noir"],
    "Une capitaine en exil traque un signal quantique qui plie le temps et expose les secrets de sa flotte.",
    "text-cyan-200", "from-cyan-500/70 via-blue-700/60 to-slate-950", Some(0.68))

  const Fable76 := MediaItem(
    "fable-76", "Fable 76", Film, 2024, "1h 52m", "12+", ["Aventure", "Mystere"],
    "Une archiviste infiltre un palais flottant ou chaque souvenir est mis aux enchere en direct.",
    "text-amber-200", "from-amber-400/70 via-orange-600/70 to-rose-900", Some(0.24))

  const NeonRidge := MediaItem(
    "neon-ridge", "Neon Ridge", Serie, 2023, "10 x 50m", "18+", ["Crime", "Drama", "Action"],
    "Deux soeurs detectives naviguent entre gangs et corporations dans une megaville alimentee au soleil.",
    "text-fuchsia-200", "from-fuchsia-500/70 via-purple-700/70 to-indigo-950", None)

  const Emberline := MediaItem(
    "emberline", "Emberline", Film, 2022, "2h 04m", "13+", ["Drama", "Romance"],
    "Une cheffe de train apprend a ralentir la fin du monde en orchestrant un dernier voyage.",
    "text-rose-200", "from-rose-500/70 via-red-700/70 to-slate-950", None)

  const AuroraDistrict := MediaItem(
    "aurora-district", "Aurora District", Serie, 2025, "6 x 55m", "16+", ["Tech", "Mystere"],
    "Dans un district polaire, une analyste anticipe les crimes avant qu'ils ne se produisent.",
    "text-emerald-200", "from-emerald-500/70 via-teal-700/70 to-slate-950", None)

  const TideKeepers := MediaItem(
    "tide-keepers", "Tide Keepers", Film, 2021, "1h 38m", "10+", ["Famille", "Aventure"],
    "Une fratrie construit un phare nomade pour guider des baleines perdues.",
    "text-sky-200", "from-sky-400/70 via-indigo-600/60 to-slate-950", None)

  const catalog: seq<MediaItem> := [HelixDrift, Fable76, NeonRidge, Emberline, AuroraDistrict, TideKeepers]

  /** `item.progress` used as a condition: present and non-zero. */
  predicate Started(item: MediaItem) {
    item.progress.Some? && item.progress.value != 0.0
  }

  /** `items.filter((item) => item.progress)`: the started items, in catalogue order. */
  function ContinueWatchingOf(items: seq<MediaItem>): (r: seq<MediaItem>)
    ensures forall x :: x in r ==> x in items && Started(x)
    ensures forall i :: 0 <= i < |items| && Started(items[i]) ==> items[i] in r
    ensures (forall i :: 0 <= i < |items| ==> !Started(items[i])) ==> r == []
    ensures |r| <= |items|
  {
    StartedFilter(items);
    Filter(items, Started)
  }

  /** The row keeps catalogue order: filtering two runs of items one after
      the other gives the two rows one after the other. */
  lemma ContinueWatchingAppend(a: seq<MediaItem>, b: seq<MediaItem>)
    ensures ContinueWatchingOf(a + b) == ContinueWatchingOf(a) + ContinueWatchingOf(b)
  {
    FilterAppend(a, b, Started);
  }

  /** One item gives itself when started and nothing otherwise; with
      `ContinueWatchingAppend` this fixes the row of every list, each item
      kept at most once. */
  lemma ContinueWatchingOne(x: MediaItem)
    ensures ContinueWatchingOf([x]) == if Started(x) then [x] else []
  {
    assert [x][1..] == [];
  }

  lemma StartedFilter(items: seq<MediaItem>)
    ensures forall x :: x in Filter(items, Started) ==> x in items && Started(x)
    ensures forall i :: 0 <= i < |items| && Started(items[i]) ==> items[i] in Filter(items, Started)
    ensures (forall i :: 0 <= i < |items| ==> !Started(items[i])) ==> Filter(items, Started) == []
  {
    var r := Filter(items, Started);
    FilterOnlyKept(items, Started);
    forall i | 0 <= i < |items| && Started(items[i])
      ensures items[i] in r
    {
      FilterKeeps(items, Started, i);
    }
    if r != [] {
      assert r[0] in r;
    }
  }

  /** `items.slice(0, 4)`: the first four items, or all of them when fewer. */
  function TrendingOf(items: seq<MediaItem>): (r: seq<MediaItem>)
    ensures |r| == if |items| < 4 then |items| else 4
    ensures forall i :: 0 <= i < |r| ==> r[i] == items[i]
  {
    if |items| < 4 then items else items[..4]
  }

  const featured: MediaItem := catalog[0]

  const continueWatching: seq<MediaItem> := ContinueWatchingOf(catalog)

  const trending: seq<MediaItem> := TrendingOf(catalog)

  /** The catalogue's ids are pairwise distinct, every stored fraction lies
      in [0, 1], and the featured item is Helix Drift. */
  lemma CatalogShape()
    ensures |catalog| == 6
    ensures forall i, j :: 0 <= i < j < |catalog| ==> catalog[i].id != catalog[j].id
    ensures forall i :: 0 <= i < |catalog| && catalog[i].progress.Some? ==> 0.0 <= catalog[i].progress.value <= 1.0
    ensures featured.id == "helix-drift" && featured.title == "Helix Drift"
  {
    var initials := "hfneat";
    forall i | 0 <= i < |catalog|
      ensures |catalog[i].id| > 0 && catalog[i].id[0] == initials[i]
    {
    }
  }

  /** The started row holds exactly Helix Drift then Fable 76. */
  lemma ContinueWatchingContents()
    ensures continueWatching == [HelixDrift, Fable76]
    ensures continueWatching[0].id == "helix-drift" && continueWatching[1].id == "fable-76"
  {
    assert Filter(catalog[5..], Started) == [];
    assert Filter(catalog[4..], Started) == [];
    assert Filter(catalog[3..], Started) == [];
    assert Filter(catalog[2..], Started) == [];
    assert Filter(catalog[1..], Started) == [Fable76];
    assert Filter(catalog, Started) == [HelixDrift, Fable76];
  }

  /** The trending row is the first four items of the catalogue. */
  lemma TrendingContents()
    ensures trending == [HelixDrift, Fable76, NeonRidge, Emberline]
    ensures featured == trending[0]
  {
  }
}
