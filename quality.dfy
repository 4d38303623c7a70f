/**
 * The session-replay quality tier given on the command line, the capture
 * parameters `force_quality` derives from it, and the `configure=` value that
 * carries those parameters to the application.
 */
module Quality {
  import opened Wrappers
  import Descriptor
  import Decimal

  /** Capture frame rate and image-quality level. */
  datatype Params = Params(fps: nat, imageQuality: nat)

  /**
   * The tier table: "LOW" and "MEDIUM" are recognised, and every other
   * string, unrecognised ones included, gets the parameters of "HIGH".
   */
  function QualityParams(quality: string): (p: Params)
    ensures p in {Params(5, 0), Params(10, 1), Params(10, 2)}
    ensures p.imageQuality == TierRank(quality)
    ensures p.fps == 5 <==> quality == "LOW"
  {
    if quality == "LOW" then Params(5, 0)
    else if quality == "MEDIUM" then Params(10, 1)
    else Params(10, 2)
  }

  /** The position of a tier in LOW < MEDIUM < HIGH, as the table reads a string. */
  function TierRank(quality: string): (rank: nat)
    ensures rank <= 2
  {
    if quality == "LOW" then 0 else if quality == "MEDIUM" then 1 else 2
  }

  /** The canonical tier name of a parameter pair the table can produce. */
  function TierName(p: Params): (quality: string)
    requires p in {Params(5, 0), Params(10, 1), Params(10, 2)}
    ensures QualityParams(quality) == p
  {
    if p == Params(5, 0) then "LOW" else if p == Params(10, 1) then "MEDIUM" else "HIGH"
  }

  /** The table's three rows, with case-sensitive matching and the catch-all. */
  lemma QualityTable()
    ensures QualityParams("LOW") == Params(5, 0)
    ensures QualityParams("MEDIUM") == Params(10, 1)
    ensures QualityParams("HIGH") == Params(10, 2)
    ensures QualityParams("low") == Params(10, 2)
    ensures QualityParams("") == Params(10, 2)
  {
  }

  /** A higher tier never captures fewer frames or at a lower image quality. */
  lemma QualityMonotone(q1: string, q2: string)
    requires TierRank(q1) <= TierRank(q2)
    ensures QualityParams(q1).fps <= QualityParams(q2).fps
    ensures QualityParams(q1).imageQuality <= QualityParams(q2).imageQuality
  {
  }

  /** Naming the tier of a string's parameters gives the string back for the three documented tiers. */
  lemma TierNameRoundTrip(quality: string)
    requires quality in {"LOW", "MEDIUM", "HIGH"}
    ensures QualityParams(quality) in {Params(5, 0), Params(10, 1), Params(10, 2)}
    ensures TierName(QualityParams(quality)) == quality
  {
  }

  const ForceKey: string := "DEVELOPER_SESSION_REPLAY_FORCE_QUALITY_LEVEL"
  const ForceFlag: string := ForceKey + "=true"
  const FpsKey: string := "DEVELOPER_SESSION_REPLAY_FPS_VALUE"
  const ImageQualityKey: string := "DEVELOPER_SESSION_REPLAY_IMAGE_QUALITY_VALUE"

  /** One `key=<decimal>` pair of a `configure=` value. */
  function Pair(key: string, n: nat): string {
    key + "=" + Decimal.NatToString(n)
  }

  /**
   * The `configure=` value of the force-quality deep link: the force flag and
   * the two key=value pairs, separated by commas that occur nowhere else.
   */
  function QualityPayload(p: Params): (payload: string)
    ensures Descriptor.Split(payload, ',')
         == [ForceFlag, Pair(FpsKey, p.fps), Pair(ImageQualityKey, p.imageQuality)]
  {
    var fpsItem, iqItem := Pair(FpsKey, p.fps), Pair(ImageQualityKey, p.imageQuality);
    var payload := ForceFlag + "," + fpsItem + "," + iqItem;
    assert payload == ForceFlag + [','] + (fpsItem + [','] + iqItem);
    assert ',' !in ForceFlag by { assert ',' !in ForceKey; }
    assert ',' !in FpsKey && ',' !in ImageQualityKey;
    PairHasNoComma(FpsKey, p.fps);
    PairHasNoComma(ImageQualityKey, p.imageQuality);
    Descriptor.SplitAtFirst(ForceFlag, ',', fpsItem + [','] + iqItem);
    Descriptor.SplitAtFirst(fpsItem, ',', iqItem);
    Descriptor.SplitWithoutSeparator(iqItem, ',');
    payload
  }

  /** The value of `key=<digits>`, if `item` is exactly that. */
  function ReadNumber(item: string, key: string): Option<nat> {
    var kv := Descriptor.Split(item, '=');
    if |kv| == 2 && kv[0] == key && Decimal.AllDigits(kv[1]) && |kv[1]| > 0
    then Some(Decimal.ParseNat(kv[1]))
    else None
  }

  /**
   * How a reader of the `configure=` value gets the parameters back: split at
   * commas, then each pair at its `=`.
   */
  function ReadQualityPayload(payload: string): Option<Params> {
    var items := Descriptor.Split(payload, ',');
    if |items| != 3 || items[0] != ForceFlag then None
    else
      match (ReadNumber(items[1], FpsKey), ReadNumber(items[2], ImageQualityKey))
      case (Some(fps), Some(iq)) => Some(Params(fps, iq))
      case _ => None
  }

  lemma {:induction false} ReadNumberOfPair(key: string, n: nat)
    requires '=' !in key
    ensures ReadNumber(Pair(key, n), key) == Some(n)
  {
    var digits := Decimal.NatToString(n);
    DigitsHaveNo('=', digits);
    Descriptor.SplitAtFirst(key, '=', digits);
    Descriptor.SplitWithoutSeparator(digits, '=');
    Decimal.ParseNatToString(n);
  }

  lemma PairHasNoComma(key: string, n: nat)
    requires ',' !in key
    ensures ',' !in Pair(key, n)
  {
    DigitsHaveNo(',', Decimal.NatToString(n));
  }

  /** The force-quality payload is read back as exactly the parameters it was built from. */
  lemma {:induction false} QualityPayloadRoundTrip(p: Params)
    ensures ReadQualityPayload(QualityPayload(p)) == Some(p)
  {
    assert '=' !in FpsKey && '=' !in ImageQualityKey;
    ReadNumberOfPair(FpsKey, p.fps);
    ReadNumberOfPair(ImageQualityKey, p.imageQuality);
  }

  lemma DigitsHaveNo(c: char, digits: string)
    requires Decimal.AllDigits(digits) && !Decimal.IsDigit(c)
    ensures c !in digits
  {
  }
}
