/** The static tables of the flood-risk map (constants.ts): the level order,
    the region groups, the base records of the 36 units and the monthly
    weather tables, plus the assembly of one month's records. */
module Constants {
  import opened Types
  import Seqs

  // ---------------------------------------------------------------------
  // Level order
  // ---------------------------------------------------------------------

  const RiskLevelsOrder: seq<RiskLevel> := [Safe, Low, Medium, High, VeryHigh, Alarm, Critical]

  /** The rank of a level in RISK_LEVELS_ORDER; Safe is 0, Critical is 6. */
  function LevelIndex(l: RiskLevel): (i: nat)
    ensures i < |RiskLevelsOrder| && RiskLevelsOrder[i] == l
  {
    LevelInOrder(l);
    Seqs.IndexOf(RiskLevelsOrder, l)
  }

  lemma LevelInOrder(l: RiskLevel)
    ensures l in RiskLevelsOrder
  {
    match l
    case Safe => assert RiskLevelsOrder[0] == l;
    case Low => assert RiskLevelsOrder[1] == l;
    case Medium => assert RiskLevelsOrder[2] == l;
    case High => assert RiskLevelsOrder[3] == l;
    case VeryHigh => assert RiskLevelsOrder[4] == l;
    case Alarm => assert RiskLevelsOrder[5] == l;
    case Critical => assert RiskLevelsOrder[6] == l;
  }

  /** RISK_LEVELS_ORDER lists each of the seven levels exactly once, from
      Safe to Critical. */
  lemma RiskLevelsOrderLists()
    ensures |RiskLevelsOrder| == 7
    ensures forall i, j :: 0 <= i < j < |RiskLevelsOrder| ==> RiskLevelsOrder[i] != RiskLevelsOrder[j]
    ensures forall l: RiskLevel :: l in RiskLevelsOrder
    ensures RiskLevelsOrder[0] == Safe && RiskLevelsOrder[6] == Critical
    ensures LevelIndex(Safe) == 0 && LevelIndex(Low) == 1 && LevelIndex(Medium) == 2
    ensures LevelIndex(High) == 3 && LevelIndex(VeryHigh) == 4 && LevelIndex(Alarm) == 5
    ensures LevelIndex(Critical) == 6
  {
    forall l: RiskLevel ensures l in RiskLevelsOrder {
      LevelInOrder(l);
    }
  }

  // ---------------------------------------------------------------------
  // Region groups
  // ---------------------------------------------------------------------

  /** The unit ids of each named region; 'All' is implicit and has no entry. */
  const Regions: map<Region, seq<string>> := map[
    North := [
      "VN-01-HG-TQ", "VN-02-CB", "VN-03-LC", "VN-04-LCI-YB", "VN-05-BK-TN", "VN-06-DB",
      "VN-07-LS", "VN-08-SL", "VN-09-PT-VP-HB", "VN-10-BG-BN", "VN-11-QN", "VN-12-HN",
      "VN-13-HP-HD", "VN-14-HY-TB", "VN-15-HNA-ND-NB"
    ],
    Central := [
      "VN-16-TH", "VN-17-NA", "VN-18-HT", "VN-19-QB-QT", "VN-20-TTH", "VN-21-DN-QNA",
      "VN-22-QNG", "VN-23-KT-GL-BD", "VN-24-DL-PY", "VN-25-KH-NT", "VN-26-DNO-LD-BTH", "VN-HS",
      "VN-TS"
    ],
    South := [
      "VN-27-BP-DNA", "VN-28-TNI", "VN-29-HCM-BD-BRVT", "VN-30-DT-TG", "VN-31-KG-AG",
      "VN-32-VL-TV-BTR", "VN-33-CT-HG-ST", "VN-34-BL-CM"
    ]
  ]

  // ---------------------------------------------------------------------
  // Base records
  // ---------------------------------------------------------------------

  /** A unit's static factors: everything but the monthly weather. */
  datatype BaseProvince = BaseProvince(
    id: string,
    name: string,
    history: History,
    geography: Geography,
    infrastructure: Infrastructure,
    riskClarification: Option<string>)

  const NorthBase: seq<BaseProvince> := [
      BaseProvince("VN-01-HG-TQ", "Hà Giang - Tuyên Quang", History(2, 8, 15, "src_vndma"), Mountain, Developing, None),
      BaseProvince("VN-02-CB", "Cao Bằng", History(1, 6, 12, "src_local_report"), Mountain, Developing, None),
      BaseProvince("VN-03-LC", "Lai Châu", History(3, 10, 18, "src_vndma"), Mountain, Developing, None),
      BaseProvince("VN-04-LCI-YB", "Lào Cai - Yên Bái", History(2, 9, 16, "src_vndma"), Mountain, Standard, None),
      BaseProvince("VN-05-BK-TN", "Bắc Kạn - Thái Nguyên", History(1, 4, 9, "src_local_report"), Mountain, Standard, None),
      BaseProvince("VN-06-DB", "Điện Biên", History(1, 7, 14, "src_local_report"), Mountain, Developing, None),
      BaseProvince("VN-07-LS", "Lạng Sơn", History(1, 3, 7, "src_local_report"), Mountain, Standard, None),
      BaseProvince("VN-08-SL", "Sơn La", History(2, 8, 15, "src_vndma"), Mountain, Standard, None),
      BaseProvince("VN-09-PT-VP-HB", "Phú Thọ - Vĩnh Phúc - Hòa Bình", History(1, 5, 11, "src_local_report"), Delta, Standard, None),
      BaseProvince("VN-10-BG-BN", "Bắc Giang - Bắc Ninh", History(1, 4, 8, "src_local_report"), Delta, Standard, None),
      BaseProvince("VN-11-QN", "Quảng Ninh", History(2, 6, 10, "src_vndma"), CoastalPlain, Standard, None),
      BaseProvince("VN-12-HN", "TP. Hà Nội", History(0, 2, 5, "src_hanoi_drainage"), Delta, Advanced, Some("clarification_hanoi")),
      BaseProvince("VN-13-HP-HD", "TP. Hải Phòng - Hải Dương", History(1, 3, 6, "src_local_report"), CoastalPlain, Advanced, None),
      BaseProvince("VN-14-HY-TB", "Hưng Yên - Thái Bình", History(0, 2, 4, "src_local_report"), Delta, Standard, None),
      BaseProvince("VN-15-HNA-ND-NB", "Hà Nam - Nam Định - Ninh Bình", History(1, 3, 7, "src_local_report"), Delta, Standard, None)
    ]

  const CentralBase: seq<BaseProvince> := [
      BaseProvince("VN-16-TH", "Thanh Hóa", History(2, 8, 17, "src_vndma"), CoastalPlain, Standard, None),
      BaseProvince("VN-17-NA", "Nghệ An", History(3, 11, 20, "src_vndma"), CoastalPlain, Standard, None),
      BaseProvince("VN-18-HT", "Hà Tĩnh", History(3, 12, 22, "src_vndma"), CoastalPlain, Standard, None),
      BaseProvince("VN-19-QB-QT", "Quảng Bình - Quảng Trị", History(4, 15, 25, "src_vndma"), CoastalPlain, Standard, None),
      BaseProvince("VN-20-TTH", "TP. Huế", History(2, 10, 19, "src_vndma"), CoastalPlain, Advanced, None),
      BaseProvince("VN-21-DN-QNA", "TP. Đà Nẵng - Quảng Nam", History(1, 9, 18, "src_vndma"), CoastalPlain, Advanced, Some("clarification_danang")),
      BaseProvince("VN-22-QNG", "Quảng Ngãi", History(1, 7, 15, "src_local_report"), CoastalPlain, Standard, None),
      BaseProvince("VN-23-KT-GL-BD", "Kon Tum - Gia Lai - Bình Định", History(1, 5, 12, "src_local_report"), Mountain, Standard, None),
      BaseProvince("VN-24-DL-PY", "Đắk Lắk - Phú Yên", History(0, 4, 9, "src_local_report"), Mountain, Developing, None),
      BaseProvince("VN-25-KH-NT", "Khánh Hòa - Ninh Thuận", History(0, 2, 5, "src_local_report"), CoastalPlain, Standard, None),
      BaseProvince("VN-26-DNO-LD-BTH", "Đắk Nông - Lâm Đồng - Bình Thuận", History(0, 3, 6, "src_local_report"), HighGround, Standard, None),
      BaseProvince("VN-HS", "Quần đảo Hoàng Sa", History(0, 0, 0, "src_na"), HighGround, Developing, None),
      BaseProvince("VN-TS", "Quần đảo Trường Sa", History(0, 0, 0, "src_na"), HighGround, Developing, None)
    ]

  const SouthBase: seq<BaseProvince> := [
      BaseProvince("VN-27-BP-DNA", "Bình Phước - Đồng Nai", History(0, 2, 4, "src_local_report"), HighGround, Standard, None),
      BaseProvince("VN-28-TNI", "Tây Ninh - Long An", History(1, 4, 9, "src_local_report"), Delta, Standard, None),
      BaseProvince("VN-29-HCM-BD-BRVT", "TP. HCM - Bình Dương - Bà Rịa-Vũng Tàu", History(1, 3, 6, "src_hcmc_flood_control"), Delta, Advanced, Some("clarification_hcmc")),
      BaseProvince("VN-30-DT-TG", "Đồng Tháp - Tiền Giang", History(2, 8, 16, "src_vndma"), Delta, Standard, None),
      BaseProvince("VN-31-KG-AG", "Kiên Giang - An Giang", History(3, 10, 18, "src_vndma"), Delta, Standard, None),
      BaseProvince("VN-32-VL-TV-BTR", "Vĩnh Long - Trà Vinh - Bến Tre", History(2, 7, 14, "src_local_report"), Delta, Developing, None),
      BaseProvince("VN-33-CT-HG-ST", "Cần Thơ - Hậu Giang - Sóc Trăng", History(2, 6, 13, "src_cantho_uni"), Delta, Advanced, Some("clarification_cantho")),
      BaseProvince("VN-34-BL-CM", "Bạc Liêu - Cà Mau", History(3, 9, 15, "src_vndma"), Delta, Developing, None)
    ]

  const BaseProvinceData: seq<BaseProvince> := NorthBase + CentralBase + SouthBase

  function BaseIds(): set<string> {
    set i | 0 <= i < |BaseProvinceData| :: BaseProvinceData[i].id
  }

  /** The history counts of every shipped record are cumulative, as the
      scorer assumes. */
  lemma BaseHistoryIsCumulative()
    ensures forall i :: 0 <= i < |BaseProvinceData| ==>
      var h := BaseProvinceData[i].history;
      0 <= h.lastYear <= h.last5Years <= h.last10Years
  {
  }

  /** The ids of some base records, in order. */
  function Ids(ps: seq<BaseProvince>): (r: seq<string>)
    ensures |r| == |ps|
    ensures forall i :: 0 <= i < |r| ==> r[i] == ps[i].id
  {
    seq(|ps|, i requires 0 <= i < |ps| => ps[i].id)
  }

  /** Each region group lists the ids of its block of base records, in
      base order. */
  lemma RegionsListBaseIds()
    ensures Regions.Keys == {North, Central, South}
    ensures Regions[North] == Ids(NorthBase)
    ensures Regions[Central] == Ids(CentralBase)
    ensures Regions[South] == Ids(SouthBase)
  {
  }

  // The unit numbering separates the groups: North holds units 01-15,
  // Central units 16-26 and the two archipelagos, South units 27-34.

  predicate IsDigit(c: char) { '0' <= c <= '9' }

  /** An id `VN-dd-...` numbered from `lo` to `hi`. */
  predicate NumberedIn(id: string, lo: int, hi: int) {
    |id| >= 5 && IsDigit(id[3]) && IsDigit(id[4]) &&
    lo <= (id[3] as int - '0' as int) * 10 + (id[4] as int - '0' as int) <= hi
  }

  predicate NorthNumber(id: string) {
    NumberedIn(id, 1, 15)
  }

  predicate CentralNumber(id: string) {
    NumberedIn(id, 16, 26) || id == "VN-HS" || id == "VN-TS"
  }

  predicate SouthNumber(id: string) {
    NumberedIn(id, 27, 34)
  }

  lemma RegionsNumbered()
    ensures forall i :: 0 <= i < |Regions[North]| ==> NorthNumber(Regions[North][i])
    ensures forall i :: 0 <= i < |Regions[Central]| ==> CentralNumber(Regions[Central][i])
    ensures forall i :: 0 <= i < |Regions[South]| ==> SouthNumber(Regions[South][i])
  {
  }

  /** No id belongs to two region groups. */
  lemma RegionsDisjoint()
    ensures forall r1, r2, i, j ::
      (r1 in Regions && r2 in Regions && r1 != r2 && 0 <= i < |Regions[r1]| && 0 <= j < |Regions[r2]|)
      ==> Regions[r1][i] != Regions[r2][j]
  {
    RegionsNumbered();
  }

  /** The region groups together hold exactly the ids of the base records. */
  lemma RegionsCoverBaseIds()
    ensures forall r, i :: r in Regions && 0 <= i < |Regions[r]| ==> Regions[r][i] in BaseIds()
    ensures forall id :: id in BaseIds() ==> exists r, i :: r in Regions && 0 <= i < |Regions[r]| && Regions[r][i] == id
  {
    RegionsListBaseIds();
    var n, c := |NorthBase|, |CentralBase|;
    forall r, i | r in Regions && 0 <= i < |Regions[r]| ensures Regions[r][i] in BaseIds() {
      var k := if r == North then i else if r == Central then n + i else n + c + i;
      assert BaseProvinceData[k].id == Regions[r][i];
    }
    forall id | id in BaseIds()
      ensures exists r, i :: r in Regions && 0 <= i < |Regions[r]| && Regions[r][i] == id
    {
      var k :| 0 <= k < |BaseProvinceData| && BaseProvinceData[k].id == id;
      if k < n {
        assert Regions[North][k] == id;
      } else if k < n + c {
        assert Regions[Central][k - n] == id;
      } else {
        assert Regions[South][k - n - c] == id;
      }
    }
  }

  // ---------------------------------------------------------------------
  // Weather tables
  // ---------------------------------------------------------------------

  /** One property of a weather object literal. */
  datatype Entry = Entry(id: string, forecast: WeatherForecast)

  /** The properties of a `Record<string, WeatherForecast>` literal in source
      order; as in an object literal, a later property overrides an earlier
      one with the same key, which is what makes `{...previous, ...}` work. */
  type WeatherTable = seq<Entry>

  predicate HasKey(t: WeatherTable, id: string) {
    exists j :: 0 <= j < |t| && t[j].id == id
  }

  /** `t[id]`: the forecast of the last property named `id`, if any. */
  function Lookup(t: WeatherTable, id: string): (r: Option<WeatherForecast>)
    ensures r.Some? <==> HasKey(t, id)
    ensures r.Some? ==> exists j :: 0 <= j < |t| && t[j] == Entry(id, r.value)
  {
    if |t| == 0 then None
    else if t[|t| - 1].id == id then Some(t[|t| - 1].forecast)
    else
      var r := Lookup(t[..|t| - 1], id);
      assert HasKey(t, id) ==> HasKey(t[..|t| - 1], id) by {
        if HasKey(t, id) {
          var j :| 0 <= j < |t| && t[j].id == id;
          assert t[..|t| - 1][j] == t[j];
        }
      }
      assert r.Some? ==> exists j :: 0 <= j < |t| && t[j] == Entry(id, r.value) by {
        if r.Some? {
          var j :| 0 <= j < |t| - 1 && t[..|t| - 1][j] == Entry(id, r.value);
          assert t[j] == Entry(id, r.value);
        }
      }
      r
  }

  /** Reading a key of `{...a, ...b}` takes `b`'s value when `b` has the key
      and `a`'s otherwise. */
  lemma {:induction false} LookupSpread(a: WeatherTable, b: WeatherTable, id: string)
    ensures Lookup(a + b, id) == if HasKey(b, id) then Lookup(b, id) else Lookup(a, id)
  {
    if |b| > 0 {
      var front := b[..|b| - 1];
      assert (a + b)[..|a + b| - 1] == a + front;
      LookupSpread(a, front, id);
      if b[|b| - 1].id != id {
        assert HasKey(b, id) <==> HasKey(front, id) by {
          if HasKey(b, id) {
            var j :| 0 <= j < |b| && b[j].id == id;
            assert front[j] == b[j];
          }
          if HasKey(front, id) {
            var j :| 0 <= j < |front| && front[j].id == id;
            assert b[j] == front[j];
          }
        }
      }
    } else {
      assert a + b == a;
    }
  }

  /** A month's replacement of one unit's summary, rainfall and status; the
      peak days and sources are carried over from the previous month. */
  datatype Override = Override(id: string, summary: string, predictedRainfall: int, status: WeatherStatus)

  function Patch(w: WeatherForecast, o: Override): (r: WeatherForecast)
    ensures r.peakRainfallDays == w.peakRainfallDays && r.sources == w.sources
    ensures r.summary == o.summary && r.predictedRainfall == o.predictedRainfall && r.status == o.status
  {
    w.(summary := o.summary, predictedRainfall := o.predictedRainfall, status := o.status)
  }

  function OverriddenIds(os: seq<Override>): set<string> {
    set i | 0 <= i < |os| :: os[i].id
  }

  /** `{...previous, [o.id]: {...previous[o.id], summary, rainfall, status}}`
      for the overrides `os` of a month. */
  function Spread(previous: WeatherTable, os: seq<Override>): (r: WeatherTable)
    requires forall i :: 0 <= i < |os| ==> HasKey(previous, os[i].id)
    ensures |r| == |previous| + |os| && r[..|previous|] == previous
    ensures forall i :: 0 <= i < |os| ==>
      r[|previous| + i] == Entry(os[i].id, Patch(Lookup(previous, os[i].id).value, os[i]))
  {
    previous + seq(|os|, i requires 0 <= i < |os| =>
      Entry(os[i].id, Patch(Lookup(previous, os[i].id).value, os[i])))
  }

  /** A table reads the last property with a given key. */
  lemma {:induction false} LastEntryWins(t: WeatherTable, k: int)
    requires 0 <= k < |t|
    requires forall j :: k < j < |t| ==> t[j].id != t[k].id
    ensures Lookup(t, t[k].id) == Some(t[k].forecast)
  {
    if k < |t| - 1 {
      var front := t[..|t| - 1];
      assert front[k] == t[k];
      assert forall j :: k < j < |front| ==> front[j] == t[j];
      LastEntryWins(front, k);
    }
  }

  /** An overridden id reads its previous forecast patched by its last
      override. */
  lemma SpreadOverride(previous: WeatherTable, os: seq<Override>, i: int)
    requires forall i :: 0 <= i < |os| ==> HasKey(previous, os[i].id)
    requires 0 <= i < |os|
    requires forall j :: i < j < |os| ==> os[j].id != os[i].id
    ensures Lookup(Spread(previous, os), os[i].id) == Some(Patch(Lookup(previous, os[i].id).value, os[i]))
  {
    var r := Spread(previous, os);
    assert forall j :: |previous| + i < j < |r| ==> r[j].id == os[j - |previous|].id;
    LastEntryWins(r, |previous| + i);
  }

  /** The added properties of a spread name exactly the overridden ids. */
  lemma SpreadTailKeys(previous: WeatherTable, os: seq<Override>, id: string)
    requires forall i :: 0 <= i < |os| ==> HasKey(previous, os[i].id)
    ensures HasKey(Spread(previous, os)[|previous|..], id) <==> id in OverriddenIds(os)
  {
    var tail := Spread(previous, os)[|previous|..];
    assert forall i :: 0 <= i < |os| ==> tail[i].id == os[i].id;
    if id in OverriddenIds(os) {
      var i :| 0 <= i < |os| && os[i].id == id;
      assert tail[i].id == id;
    }
  }

  /** A spread keeps the previous month's forecast of every id it does not
      override, and has the same keys. */
  lemma SpreadKeepsOthers(previous: WeatherTable, os: seq<Override>, id: string)
    requires forall i :: 0 <= i < |os| ==> HasKey(previous, os[i].id)
    ensures id !in OverriddenIds(os) ==> Lookup(Spread(previous, os), id) == Lookup(previous, id)
    ensures HasKey(Spread(previous, os), id) <==> HasKey(previous, id)
  {
    var r := Spread(previous, os);
    assert r == previous + r[|previous|..];
    LookupSpread(previous, r[|previous|..], id);
    SpreadTailKeys(previous, os, id);
  }

  /** Every base record's unit has a forecast in `weatherData`. */
  predicate CoversBase(weatherData: WeatherTable) {
    forall i :: 0 <= i < |BaseProvinceData| ==> HasKey(weatherData, BaseProvinceData[i].id)
  }

  // November, in the four groups of the source table.

  const Weather11North: WeatherTable := [
      Entry("VN-01-HG-TQ", WeatherForecast("summary_11_hagiang", "peak_11_weeks_1_3", 80, Normal, "src_nchmf")),
      Entry("VN-03-LC", WeatherForecast("summary_11_laichau", "peak_11_days_5_10", 70, Normal, "src_nchmf")),
      Entry("VN-04-LCI-YB", WeatherForecast("summary_11_laocai", "peak_11_week_2", 90, Normal, "src_nchmf")),
      Entry("VN-06-DB", WeatherForecast("summary_11_dienbien", "peak_11_after_day_20", 60, Normal, "src_nchmf")),
      Entry("VN-08-SL", WeatherForecast("summary_11_sonla", "peak_11_weeks_2_4", 75, Normal, "src_nchmf")),
      Entry("VN-11-QN", WeatherForecast("summary_11_quangninh", "peak_11_end_of_month", 120, Normal, "src_nchmf,src_jtwc"))
    ]

  const Weather11Central: WeatherTable := [
      Entry("VN-17-NA", WeatherForecast("summary_11_nghean", "peak_11_early_mid_month", 300, AboveAverage, "src_nchmf,src_jtwc")),
      Entry("VN-18-HT", WeatherForecast("summary_11_hatinh", "peak_11_scattered", 320, AboveAverage, "src_nchmf,src_jtwc")),
      Entry("VN-19-QB-QT", WeatherForecast("summary_11_quangbinh", "peak_11_weeks_1_2", 350, AboveAverage, "src_nchmf,src_jtwc")),
      Entry("VN-20-TTH", WeatherForecast("summary_11_hue", "peak_11_mid_month", 400, AboveAverage, "src_nchmf"))
    ]

  const Weather11South: WeatherTable := [
      Entry("VN-28-TNI", WeatherForecast("summary_11_tayninh", "peak_11_end_of_month", 150, Normal, "src_southern_hydro_meteo,src_mekong_commission")),
      Entry("VN-30-DT-TG", WeatherForecast("summary_11_dongthap", "peak_11_late_half_month", 180, Normal, "src_mekong_commission")),
      Entry("VN-31-KG-AG", WeatherForecast("summary_11_kiengiang", "peak_11_late_half_month", 200, Normal, "src_mekong_commission")),
      Entry("VN-32-VL-TV-BTR", WeatherForecast("summary_11_vinhlong", "peak_11_days_15_25", 170, Normal, "src_southern_hydro_meteo")),
      Entry("VN-33-CT-HG-ST", WeatherForecast("summary_11_cantho", "peak_11_week_3", 160, Normal, "src_southern_hydro_meteo")),
      Entry("VN-34-BL-CM", WeatherForecast("summary_11_baclieu", "peak_11_scattered_late", 190, Normal, "src_nchmf"))
    ]

  /** Forecasts carried over unchanged from the previous month. */
  const Weather11Generic: WeatherTable := [
      Entry("VN-02-CB", WeatherForecast("summary_generic_stable", "peak_11_mid_month", 100, Normal, "src_nchmf")),
      Entry("VN-05-BK-TN", WeatherForecast("summary_generic_normal_rain", "peak_generic_unclear", 110, Normal, "src_nchmf")),
      Entry("VN-07-LS", WeatherForecast("summary_generic_stable_nw", "peak_generic_insignificant", 95, Normal, "src_nchmf")),
      Entry("VN-09-PT-VP-HB", WeatherForecast("summary_generic_downstream_risk", "peak_generic_river_flow", 130, Normal, "src_nchmf")),
      Entry("VN-10-BG-BN", WeatherForecast("summary_generic_urban_flooding", "peak_11_mid_month", 125, Normal, "src_nchmf")),
      Entry("VN-12-HN", WeatherForecast("summary_generic_hanoi_flooding", "peak_11_days_15_20", 140, Normal, "src_nchmf")),
      Entry("VN-13-HP-HD", WeatherForecast("summary_generic_sea_surge", "peak_11_week_3", 180, AboveAverage, "src_nchmf")),
      Entry("VN-14-HY-TB", WeatherForecast("summary_generic_agricultural_flooding", "peak_generic_unclear", 135, Normal, "src_nchmf")),
      Entry("VN-15-HNA-ND-NB", WeatherForecast("summary_generic_coastal_tides", "peak_11_days_18_22", 150, Normal, "src_nchmf")),
      Entry("VN-16-TH", WeatherForecast("summary_generic_thanhhoa_heavy_rain", "peak_11_week_2", 250, AboveAverage, "src_nchmf")),
      Entry("VN-21-DN-QNA", WeatherForecast("summary_generic_danang_heavy_rain", "peak_11_all_week_3", 420, AboveAverage, "src_nchmf")),
      Entry("VN-22-QNG", WeatherForecast("summary_generic_quangngai_high_rain", "peak_11_mid_end_month", 380, AboveAverage, "src_nchmf")),
      Entry("VN-23-KT-GL-BD", WeatherForecast("summary_generic_taynguyen_rain", "peak_11_scattered", 180, Normal, "src_taynguyen_hydro_meteo")),
      Entry("VN-24-DL-PY", WeatherForecast("summary_generic_dry_low_risk", "peak_generic_insignificant", 120, Normal, "src_taynguyen_hydro_meteo")),
      Entry("VN-25-KH-NT", WeatherForecast("summary_generic_very_low_rain", "peak_generic_none", 40, Normal, "src_nchmf")),
      Entry("VN-26-DNO-LD-BTH", WeatherForecast("summary_generic_plateau_showers", "peak_11_scattered", 100, Normal, "src_taynguyen_hydro_meteo")),
      Entry("VN-HS", WeatherForecast("summary_generic_islands", "peak_generic_typhoon_dependent", 50, Normal, "src_nchmf")),
      Entry("VN-TS", WeatherForecast("summary_generic_islands", "peak_generic_typhoon_dependent", 50, Normal, "src_nchmf")),
      Entry("VN-27-BP-DNA", WeatherForecast("summary_generic_high_terrain_urban", "peak_11_mid_month", 160, Normal, "src_southern_hydro_meteo")),
      Entry("VN-29-HCM-BD-BRVT", WeatherForecast("summary_generic_hcmc_urban_tide", "peak_11_days_1_5_15_20", 220, Normal, "src_southern_hydro_meteo"))
    ]

  const Weather11: WeatherTable := Weather11North + Weather11Central + Weather11South + Weather11Generic

  const Overrides12: seq<Override> := [
      Override("VN-01-HG-TQ", "summary_12_north_dry", 30, Normal),
      Override("VN-04-LCI-YB", "summary_12_north_winter", 40, Normal),
      Override("VN-12-HN", "summary_12_hanoi_dry", 50, Normal),
      Override("VN-21-DN-QNA", "summary_12_danang_unseasonal_rain", 200, Normal),
      Override("VN-22-QNG", "summary_12_quangngai_improving", 180, Normal),
      Override("VN-29-HCM-BD-BRVT", "summary_12_saigon_dry", 80, Normal),
      Override("VN-30-DT-TG", "summary_12_mekong_receded", 70, Normal),
      Override("VN-31-KG-AG", "summary_12_mekong_dry_good", 60, Normal)
    ]

  const Overrides01: seq<Override> := [
      Override("VN-01-HG-TQ", "summary_01_north_driest", 15, Normal),
      Override("VN-17-NA", "summary_01_central_stable", 80, Normal),
      Override("VN-18-HT", "summary_01_central_stable", 90, Normal),
      Override("VN-19-QB-QT", "summary_01_central_safe", 100, Normal),
      Override("VN-20-TTH", "summary_01_central_safe", 120, Normal),
      Override("VN-34-BL-CM", "summary_01_south_drought_risk", 30, Normal)
    ]

  lemma Overrides12Known()
    ensures forall i :: 0 <= i < |Overrides12| ==> HasKey(Weather11, Overrides12[i].id)
  {
    assert Weather11[0].id == Overrides12[0].id;
    assert Weather11[2].id == Overrides12[1].id;
    assert Weather11[21].id == Overrides12[2].id;
    assert Weather11[26].id == Overrides12[3].id;
    assert Weather11[27].id == Overrides12[4].id;
    assert Weather11[35].id == Overrides12[5].id;
    assert Weather11[11].id == Overrides12[6].id;
    assert Weather11[12].id == Overrides12[7].id;
  }

  /** December spreads its overrides over November. */
  function Weather12(): WeatherTable {
    Overrides12Known();
    Spread(Weather11, Overrides12)
  }

  lemma Overrides01Known()
    ensures forall i :: 0 <= i < |Overrides01| ==> HasKey(Weather12(), Overrides01[i].id)
  {
    Overrides01InNovember();
    Overrides12Known();
    forall i | 0 <= i < |Overrides01| ensures HasKey(Weather12(), Overrides01[i].id) {
      SpreadKeepsOthers(Weather11, Overrides12, Overrides01[i].id);
    }
  }

  lemma Overrides01InNovember()
    ensures forall i :: 0 <= i < |Overrides01| ==> HasKey(Weather11, Overrides01[i].id)
  {
    assert Weather11[0].id == Overrides01[0].id;
    assert Weather11[6].id == Overrides01[1].id;
    assert Weather11[7].id == Overrides01[2].id;
    assert Weather11[8].id == Overrides01[3].id;
    assert Weather11[9].id == Overrides01[4].id;
    assert Weather11[15].id == Overrides01[5].id;
  }

  /** January spreads its overrides over December. */
  function Weather01(): WeatherTable {
    Overrides01Known();
    Spread(Weather12(), Overrides01)
  }

  /** No unit is overridden twice in one month. */
  lemma OverrideIdsDistinct()
    ensures forall i, j :: 0 <= i < j < |Overrides12| ==> Overrides12[i].id != Overrides12[j].id
    ensures forall i, j :: 0 <= i < j < |Overrides01| ==> Overrides01[i].id != Overrides01[j].id
  {
  }

  /** December reads each overridden unit's November forecast with the new
      summary, rainfall and status. */
  lemma DecemberOverridesApplied(i: int)
    requires 0 <= i < |Overrides12|
    ensures var id := Overrides12[i].id;
      Lookup(Weather11, id).Some? && Lookup(Weather12(), id) == Some(Patch(Lookup(Weather11, id).value, Overrides12[i]))
  {
    Overrides12Known();
    OverrideIdsDistinct();
    SpreadOverride(Weather11, Overrides12, i);
  }

  /** January reads each overridden unit's December forecast with the new
      summary, rainfall and status. */
  lemma JanuaryOverridesApplied(i: int)
    requires 0 <= i < |Overrides01|
    ensures var id := Overrides01[i].id;
      Lookup(Weather12(), id).Some? && Lookup(Weather01(), id) == Some(Patch(Lookup(Weather12(), id).value, Overrides01[i]))
  {
    Overrides01Known();
    OverrideIdsDistinct();
    SpreadOverride(Weather12(), Overrides01, i);
  }

  lemma NorthBaseKeyed0()
    ensures forall i :: 0 <= i < 5 ==> HasKey(Weather11, NorthBase[i].id)
  {
    forall i | 0 <= i < 5 ensures HasKey(Weather11, NorthBase[i].id) {
      if i == 0 { assert Weather11[0].id == NorthBase[0].id; }
      else if i == 1 { assert Weather11[16].id == NorthBase[1].id; }
      else if i == 2 { assert Weather11[1].id == NorthBase[2].id; }
      else if i == 3 { assert Weather11[2].id == NorthBase[3].id; }
      else { assert Weather11[17].id == NorthBase[4].id; }
    }
  }

  lemma NorthBaseKeyed1()
    ensures forall i :: 5 <= i < 10 ==> HasKey(Weather11, NorthBase[i].id)
  {
    forall i | 5 <= i < 10 ensures HasKey(Weather11, NorthBase[i].id) {
      if i == 5 { assert Weather11[3].id == NorthBase[5].id; }
      else if i == 6 { assert Weather11[18].id == NorthBase[6].id; }
      else if i == 7 { assert Weather11[4].id == NorthBase[7].id; }
      else if i == 8 { assert Weather11[19].id == NorthBase[8].id; }
      else { assert Weather11[20].id == NorthBase[9].id; }
    }
  }

  lemma NorthBaseKeyed2()
    ensures forall i :: 10 <= i < 15 ==> HasKey(Weather11, NorthBase[i].id)
  {
    forall i | 10 <= i < 15 ensures HasKey(Weather11, NorthBase[i].id) {
      if i == 10 { assert Weather11[5].id == NorthBase[10].id; }
      else if i == 11 { assert Weather11[21].id == NorthBase[11].id; }
      else if i == 12 { assert Weather11[22].id == NorthBase[12].id; }
      else if i == 13 { assert Weather11[23].id == NorthBase[13].id; }
      else { assert Weather11[24].id == NorthBase[14].id; }
    }
  }

  lemma CentralBaseKeyed0()
    ensures forall i :: 0 <= i < 5 ==> HasKey(Weather11, CentralBase[i].id)
  {
    forall i | 0 <= i < 5 ensures HasKey(Weather11, CentralBase[i].id) {
      if i == 0 { assert Weather11[25].id == CentralBase[0].id; }
      else if i == 1 { assert Weather11[6].id == CentralBase[1].id; }
      else if i == 2 { assert Weather11[7].id == CentralBase[2].id; }
      else if i == 3 { assert Weather11[8].id == CentralBase[3].id; }
      else { assert Weather11[9].id == CentralBase[4].id; }
    }
  }

  lemma CentralBaseKeyed1()
    ensures forall i :: 5 <= i < 10 ==> HasKey(Weather11, CentralBase[i].id)
  {
    forall i | 5 <= i < 10 ensures HasKey(Weather11, CentralBase[i].id) {
      if i == 5 { assert Weather11[26].id == CentralBase[5].id; }
      else if i == 6 { assert Weather11[27].id == CentralBase[6].id; }
      else if i == 7 { assert Weather11[28].id == CentralBase[7].id; }
      else if i == 8 { assert Weather11[29].id == CentralBase[8].id; }
      else { assert Weather11[30].id == CentralBase[9].id; }
    }
  }

  lemma CentralBaseKeyed2()
    ensures forall i :: 10 <= i < 13 ==> HasKey(Weather11, CentralBase[i].id)
  {
    forall i | 10 <= i < 13 ensures HasKey(Weather11, CentralBase[i].id) {
      if i == 10 { assert Weather11[31].id == CentralBase[10].id; }
      else if i == 11 { assert Weather11[32].id == CentralBase[11].id; }
      else { assert Weather11[33].id == CentralBase[12].id; }
    }
  }

  lemma SouthBaseKeyed0()
    ensures forall i :: 0 <= i < 5 ==> HasKey(Weather11, SouthBase[i].id)
  {
    forall i | 0 <= i < 5 ensures HasKey(Weather11, SouthBase[i].id) {
      if i == 0 { assert Weather11[34].id == SouthBase[0].id; }
      else if i == 1 { assert Weather11[10].id == SouthBase[1].id; }
      else if i == 2 { assert Weather11[35].id == SouthBase[2].id; }
      else if i == 3 { assert Weather11[11].id == SouthBase[3].id; }
      else { assert Weather11[12].id == SouthBase[4].id; }
    }
  }

  lemma SouthBaseKeyed1()
    ensures forall i :: 5 <= i < 8 ==> HasKey(Weather11, SouthBase[i].id)
  {
    forall i | 5 <= i < 8 ensures HasKey(Weather11, SouthBase[i].id) {
      if i == 5 { assert Weather11[13].id == SouthBase[5].id; }
      else if i == 6 { assert Weather11[14].id == SouthBase[6].id; }
      else { assert Weather11[15].id == SouthBase[7].id; }
    }
  }

  /** Every base id has a forecast in every shipped month. */
  lemma WeatherCoversBaseIds()
    ensures CoversBase(Weather11) && CoversBase(Weather12()) && CoversBase(Weather01())
  {
    var n, c := |NorthBase|, |CentralBase|;
    NorthBaseKeyed0();
    NorthBaseKeyed1();
    NorthBaseKeyed2();
    CentralBaseKeyed0();
    CentralBaseKeyed1();
    CentralBaseKeyed2();
    SouthBaseKeyed0();
    SouthBaseKeyed1();
    assert forall i :: 0 <= i < n ==> BaseProvinceData[i] == NorthBase[i];
    assert forall i :: n <= i < n + c ==> BaseProvinceData[i] == CentralBase[i - n];
    assert forall i :: n + c <= i < |BaseProvinceData| ==> BaseProvinceData[i] == SouthBase[i - n - c];
    LaterMonthsCoverBase();
  }

  /** December and January keep November's keys. */
  lemma LaterMonthsCoverBase()
    requires CoversBase(Weather11)
    ensures CoversBase(Weather12()) && CoversBase(Weather01())
  {
    Overrides12Known();
    Overrides01Known();
    forall i | 0 <= i < |BaseProvinceData|
      ensures HasKey(Weather12(), BaseProvinceData[i].id) && HasKey(Weather01(), BaseProvinceData[i].id)
    {
      SpreadKeepsOthers(Weather11, Overrides12, BaseProvinceData[i].id);
      SpreadKeepsOthers(Weather12(), Overrides01, BaseProvinceData[i].id);
    }
  }

  /** December agrees with November on every id it does not override. */
  lemma Weather12KeepsNovember(id: string)
    requires id !in OverriddenIds(Overrides12)
    ensures Lookup(Weather12(), id) == Lookup(Weather11, id)
  {
    Overrides12Known();
    SpreadKeepsOthers(Weather11, Overrides12, id);
  }

  // ---------------------------------------------------------------------
  // Month assembly
  // ---------------------------------------------------------------------

  /** A base record completed with a forecast. */
  function WithWeather(p: BaseProvince, w: WeatherForecast): ProvinceRawData {
    ProvinceRawData(p.id, p.name, RiskFactors(p.history, p.geography, w, p.infrastructure), p.riskClarification)
  }

  /** The base record a month's record was assembled from. */
  function Base(p: ProvinceRawData): BaseProvince {
    BaseProvince(p.id, p.name, p.riskFactors.history, p.riskFactors.geography,
                 p.riskFactors.infrastructure, p.riskClarification)
  }

  /** The records of one month: each base record, in order, with its unit's
      forecast. */
  function GenerateMonthData(weatherData: WeatherTable): (r: seq<ProvinceRawData>)
    requires CoversBase(weatherData)
    ensures |r| == |BaseProvinceData|
    ensures forall i :: 0 <= i < |r| ==> r[i].id == BaseProvinceData[i].id
    ensures forall i :: 0 <= i < |r| ==> Lookup(weatherData, r[i].id) == Some(r[i].riskFactors.weather)
  {
    seq(|BaseProvinceData|, i requires 0 <= i < |BaseProvinceData| =>
      WithWeather(BaseProvinceData[i], Lookup(weatherData, BaseProvinceData[i].id).value))
  }

  /** Assembling a month adds the weather and nothing else: dropping it
      gives back the base records. */
  lemma GenerateMonthDataKeepsBase(weatherData: WeatherTable)
    requires CoversBase(weatherData)
    ensures forall i :: 0 <= i < |BaseProvinceData| ==> Base(GenerateMonthData(weatherData)[i]) == BaseProvinceData[i]
  {
  }

  /** Two months' records for the same unit differ at most in the weather. */
  lemma MonthsDifferOnlyInWeather(w1: WeatherTable, w2: WeatherTable, i: int)
    requires CoversBase(w1) && CoversBase(w2)
    requires 0 <= i < |BaseProvinceData|
    ensures var p1, p2 := GenerateMonthData(w1)[i], GenerateMonthData(w2)[i];
      p1.(riskFactors := p1.riskFactors.(weather := p2.riskFactors.weather)) == p2
  {
  }

  /** Two tables that give a unit the same forecast give it the same record. */
  lemma SameWeatherSameRecord(w1: WeatherTable, w2: WeatherTable, i: int)
    requires CoversBase(w1) && CoversBase(w2)
    requires 0 <= i < |BaseProvinceData|
    requires Lookup(w1, BaseProvinceData[i].id) == Lookup(w2, BaseProvinceData[i].id)
    ensures GenerateMonthData(w1)[i] == GenerateMonthData(w2)[i]
  {
    MonthsDifferOnlyInWeather(w1, w2, i);
  }

  /** November's records. */
  function November(): (r: seq<ProvinceRawData>)
    ensures |r| == |BaseProvinceData|
  {
    WeatherCoversBaseIds();
    GenerateMonthData(Weather11)
  }

  /** December's records. */
  function December(): (r: seq<ProvinceRawData>)
    ensures |r| == |BaseProvinceData|
  {
    WeatherCoversBaseIds();
    GenerateMonthData(Weather12())
  }

  /** January's records. */
  function January(): (r: seq<ProvinceRawData>)
    ensures |r| == |BaseProvinceData|
  {
    WeatherCoversBaseIds();
    GenerateMonthData(Weather01())
  }

  /** The records of each shipped month, keyed by month number. */
  function MonthlyProvinceData(): map<string, seq<ProvinceRawData>> {
    map["11" := November(), "12" := December(), "1" := January()]
  }

  /** The table holds the three shipped months, and each month keeps the
      base records apart from weather. */
  lemma MonthlyProvinceDataShape()
    ensures MonthlyProvinceData().Keys == {"11", "12", "1"}
    ensures forall m :: m in MonthlyProvinceData() ==> |MonthlyProvinceData()[m]| == |BaseProvinceData|
    ensures forall m, i :: m in MonthlyProvinceData() && 0 <= i < |BaseProvinceData| ==>
      Base(MonthlyProvinceData()[m][i]) == BaseProvinceData[i]
  {
    WeatherCoversBaseIds();
    GenerateMonthDataKeepsBase(Weather11);
    GenerateMonthDataKeepsBase(Weather12());
    GenerateMonthDataKeepsBase(Weather01());
  }

  /** December repeats November's record for every unit it does not override. */
  lemma DecemberKeepsNovemberRecords(i: int)
    requires 0 <= i < |BaseProvinceData| && BaseProvinceData[i].id !in OverriddenIds(Overrides12)
    ensures MonthlyProvinceData()["12"][i] == MonthlyProvinceData()["11"][i]
  {
    WeatherCoversBaseIds();
    Weather12KeepsNovember(BaseProvinceData[i].id);
    SameWeatherSameRecord(Weather12(), Weather11, i);
  }
}
