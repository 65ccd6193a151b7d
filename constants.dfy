/** Read-only configuration of the pipeline: the reference hours of the day and night
    periods, the one-third-octave A-weighting table, and the map from noise station to the
    meteorological station column that serves it. */
module Constants {
  import opened Values

  const SecondsPerHour: int := 3600

  /** Reference hours, as seconds since midnight. Day runs 07:00-20:00, night 21:00-06:00. */
  const DiurnaInicio: int := 7 * SecondsPerHour
  const DiurnaFin: int := 20 * SecondsPerHour
  const NocturnaInicio: int := 21 * SecondsPerHour
  const NocturnaFin: int := 6 * SecondsPerHour

  /** One-third-octave band centre frequencies in Hz. */
  const Frequencies: seq<real> :=
    [6.3, 8.0, 10.0, 12.5, 16.0, 20.0, 25.0, 31.5, 40.0, 50.0, 63.0, 80.0, 100.0, 125.0, 160.0,
     200.0, 250.0, 315.0, 400.0, 500.0, 630.0, 800.0, 1000.0, 1250.0, 1600.0, 2000.0, 2500.0,
     3150.0, 4000.0, 5000.0, 6300.0, 8000.0, 10000.0, 12500.0, 16000.0, 20000.0]

  /** A-weighting gain in dB of the band with the same index in `Frequencies`. */
  const Ponderation: seq<real> :=
    [-85.4, -77.8, -70.4, -63.4, -56.7, -50.5, -44.7, -39.4, -34.6, -30.2, -26.2, -22.5, -19.1,
     -16.1, -13.4, -10.9, -8.6, -6.6, -4.8, -3.2, -1.9, -0.8, 0.0, 0.6, 1.0, 1.2, 1.3, 1.2, 1.0,
     0.5, -0.1, -1.1, -2.5, -4.3, -6.6, -9.3]

  const SdaPlaceholder: string := "SDA"

  /** Noise station key to the name of its meteorological station column. */
  const EstacionesMet: map<string, string> := map[
    "EMRI_1" := "EMRI 8 CE0331",
    "EMRI_2" := "EMRI 2 CE0337",
    "EMRI_3" := "EMRI 3 CE0117",
    "EMRI_4" := "EMRI 4 CE0338",
    "EMRI_5" := "EMRI 4 CE0338",
    "EMRI_7" := "EMRI 7 CE0335",
    "EMRI_8" := "EMRI 8 CE0331",
    "EMRI_10" := "EMRI 2 CE0337",
    "EMRI_11" := "EMRI 4 CE0338",
    "EMRI_13" := "CA Engativa CE0350",
    "EMRI_15" := "CA Fontibon CE0349",
    "EMRI_17" := "EMRI 17 CE0333",
    "EMRI_18" := "EMRI 2 CE0337",
    "EMRI_19" := "CA4 Funza CE0351",
    "EMRI_20" := "CA4 Funza CE0351",
    "EMRI_21" := "EMRI 7 CE0335",
    "EMRI_23" := "EMRI 3 CE0117",
    "EMRI_24" := "EMRI 4 CE0338",
    "EMRI_39" := "EMRI 3 CE0117",
    "EMRI_38" := "EMRI 3 CE0117",
    "EMRI_28" := "CA Engativa CE0350",
    "EMRI_29" := "EMRI 4 CE0338",
    "EMRI_37" := "EMRI 3 CE0117",
    "EMRI_32" := "CA Fontibon CE0349",
    "EMRI_33" := "EMRI 2 CE0337",
    "EMRI_34" := SdaPlaceholder,
    "EMRI_35" := SdaPlaceholder
  ]

  predicate StrictlyAscending(s: seq<real>) {
    forall i, j :: 0 <= i < j < |s| ==> s[i] < s[j]
  }

  /** Pairwise order follows from the order of neighbours. */
  lemma {:induction false} AdjacentAscending(s: seq<real>)
    requires forall i :: 0 <= i < |s| - 1 ==> s[i] < s[i + 1]
    ensures StrictlyAscending(s)
  {
    if |s| > 1 {
      AdjacentAscending(s[1..]);
      forall j | 1 <= j < |s| ensures s[0] < s[j] {
        assert s[1..][0] <= s[1..][j - 1];
      }
    }
  }

  /** The two tables pair up by index, and the frequencies strictly ascend from 6.3 Hz to
      20 kHz, which the nearest-band lookup relies on. */
  lemma FrequencyTable()
    ensures |Frequencies| == 36 && |Ponderation| == 36
    ensures Frequencies[0] == 6.3 && Frequencies[35] == 20000.0
    ensures StrictlyAscending(Frequencies)
  {
    AdjacentAscending(Frequencies);
  }

  /** The 1 kHz band is the A-weighting reference: its gain is exactly 0 dB. */
  lemma ReferenceBandGain()
    ensures exists i :: 0 <= i < |Frequencies| && Frequencies[i] == 1000.0 && Ponderation[i] == 0.0
  {
    assert Frequencies[22] == 1000.0;
  }

  /** The day window does not wrap midnight; the night window does. */
  lemma ReferenceWindows()
    ensures 0 <= DiurnaInicio < DiurnaFin < 24 * SecondsPerHour
    ensures 0 <= NocturnaFin < NocturnaInicio < 24 * SecondsPerHour
  {
  }

  /** `"EMRI_" + digits`. */
  predicate IsStationKey(k: string) {
    StartsWith(k, "EMRI_") && |k| > 5 && AllDigits(k[5..])
  }

  /** Every key of the station map is "EMRI_<n>"; EMRI_34 and EMRI_35 have no meteorological
      station and map to the placeholder "SDA", and no other station does. */
  lemma StationMapShape()
    ensures forall k :: k in EstacionesMet ==> IsStationKey(k)
    ensures EstacionesMet["EMRI_34"] == SdaPlaceholder && EstacionesMet["EMRI_35"] == SdaPlaceholder
    ensures forall k :: k in EstacionesMet && EstacionesMet[k] == SdaPlaceholder ==> k == "EMRI_34" || k == "EMRI_35"
  {
  }

  /** The two stations without a meteorological station. */
  lemma SdaStations()
    ensures "EMRI_34" in EstacionesMet && EstacionesMet["EMRI_34"] == SdaPlaceholder
    ensures "EMRI_35" in EstacionesMet && EstacionesMet["EMRI_35"] == SdaPlaceholder
  {
  }
}
