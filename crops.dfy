/**
 * client/src/pages/Crops.tsx: the season tabs over the crop list, the list a
 * tab shows, the count on each tab and the empty state.
 */
module Crops {
  import opened Schemas

  /** A crop as the list shows it; names and images are not read by the logic. */
  datatype Crop = Crop(id: string, slug: string, cropType: CropType)

  /** The filter tabs: `All`, then one per season. */
  datatype Tab = All | Only(season: CropType)

  /** `crops.filter(c => c.type === t)`: the crops of season `t`, in list order. */
  function OfType(crops: seq<Crop>, t: CropType): (r: seq<Crop>)
    ensures |r| <= |crops|
    ensures forall c {:trigger c in r} :: c in r <==> c in crops && c.cropType == t
    ensures forall c {:trigger multiset(r)[c]} :: multiset(r)[c] == if c.cropType == t then multiset(crops)[c] else 0
  {
    if crops == [] then []
    else
      var rest := OfType(crops[1..], t);
      assert crops == [crops[0]] + crops[1..];
      if crops[0].cropType == t then [crops[0]] + rest else rest
  }

  /**
   * `filtered`: the whole list under `All`, otherwise exactly the crops of the
   * tab's season, each as often as in the list and in the list's order.
   */
  function Filtered(crops: seq<Crop>, tab: Tab): (r: seq<Crop>)
    ensures tab == All ==> r == crops
    ensures tab.Only? ==> r == OfType(crops, tab.season)
    ensures forall c :: c in r <==> c in crops && (tab.Only? ==> c.cropType == tab.season)
  {
    match tab
    case All => crops
    case Only(t) => OfType(crops, t)
  }

  /** The number on a tab; it is the length of the list that tab would show. */
  function TabCount(crops: seq<Crop>, tab: Tab): (n: nat)
    ensures n == |Filtered(crops, tab)|
    ensures n <= |crops|
  {
    match tab
    case All => |crops|
    case Only(t) => |OfType(crops, t)|
  }

  /**
   * `filtered.length === 0`: the empty state. Under `All` it shows only for an
   * empty list; a season tab is empty exactly when no crop has that season.
   */
  function ShowsEmptyState(crops: seq<Crop>, tab: Tab): (r: bool)
    ensures tab == All ==> (r <==> crops == [])
    ensures tab.Only? ==> (r <==> forall c :: c in crops ==> c.cropType != tab.season)
  {
    var shown := Filtered(crops, tab);
    assert shown != [] ==> shown[0] in shown;
    |shown| == 0
  }

  /** One crop on its own: kept exactly when it has the season. */
  lemma OfTypeSingle(c: Crop, t: CropType)
    ensures OfType([c], t) == (if c.cropType == t then [c] else [])
  {
    assert [c][1..] == [];
  }

  /** A non-empty list: its head's share, then the rest's. */
  lemma OfTypeCons(s: seq<Crop>, t: CropType)
    requires s != []
    ensures OfType(s, t) == (if s[0].cropType == t then [s[0]] else []) + OfType(s[1..], t)
  {
  }

  /**
   * Filtering by season distributes over concatenation: the crops of the first
   * part come first, so the filter keeps the list's order.
   */
  lemma {:induction false} OfTypeAppend(a: seq<Crop>, b: seq<Crop>, t: CropType)
    ensures OfType(a + b, t) == OfType(a, t) + OfType(b, t)
  {
    if a == [] {
      assert a + b == b;
    } else {
      var ab := a + b;
      assert ab[0] == a[0] && ab[1..] == a[1..] + b;
      var x, y := OfType(a[1..], t), OfType(b, t);
      OfTypeAppend(a[1..], b, t);
      assert OfType(ab[1..], t) == x + y;
      OfTypeCons(a, t);
      OfTypeCons(ab, t);
      if a[0].cropType == t {
        assert [a[0]] + (x + y) == ([a[0]] + x) + y;
      }
    }
  }

  /**
   * Since every crop belongs to exactly one of the three seasons, the three
   * season counts add up to the `All` count.
   */
  lemma {:induction false} SeasonCountsSum(crops: seq<Crop>)
    ensures TabCount(crops, Only(Kharif)) + TabCount(crops, Only(Rabi)) + TabCount(crops, Only(Zaid))
         == TabCount(crops, All)
  {
    if crops != [] {
      SeasonCountsSum(crops[1..]);
    }
  }
}
