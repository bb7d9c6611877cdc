/** Names of the files `upload_to_azure` writes (in src/youtube_collector.py and
    azure-functions/function_app.py alike): `raw/<year>/<MM>/<DD>/<kind>_<YYYYmmdd_HHMMSS>.json`.
    The loaders rebuild the same `raw/<year>/<MM>/<DD>` prefix to find a day's files. */
module BlobNaming {
  import opened Wrappers
  import opened Text

  datatype Date = Date(year: nat, month: nat, day: nat)

  /** A wall-clock reading, as `datetime.now()` gives it, down to the microsecond (blob names use
      the reading only to the second). */
  datatype DateTime = DateTime(date: Date, hour: nat, minute: nat, second: nat, microsecond: nat)

  /** `f"raw/{now.year}/{now.month:02d}/{now.day:02d}"` */
  function DatePath(d: Date): string {
    "raw/" + Decimal(d.year) + "/" + Pad2(d.month) + "/" + Pad2(d.day)
  }

  /** `now.strftime("%Y%m%d_%H%M%S")` */
  function Stamp(t: DateTime): string {
    Decimal(t.date.year) + Pad2(t.date.month) + Pad2(t.date.day) + "_"
    + Pad2(t.hour) + Pad2(t.minute) + Pad2(t.second)
  }

  datatype BlobKind = Videos | Channels | Metadata

  function KindName(k: BlobKind): string {
    match k
    case Videos => "videos"
    case Channels => "channels"
    case Metadata => "metadata"
  }

  /** `f"{date_path}/{kind}_{timestamp}.json"` */
  function BlobName(k: BlobKind, t: DateTime): string {
    DatePath(t.date) + "/" + KindName(k) + "_" + Stamp(t) + ".json"
  }

  /** Reads a `raw/<year>/<MM>/<DD>` path back into its date. */
  function ParseDatePath(p: string): Option<Date> {
    if |p| >= 11 && p[..4] == "raw/" && p[|p| - 6] == '/' && p[|p| - 3] == '/'
       && AllDigits(p[4..|p| - 6]) && AllDigits(p[|p| - 5..|p| - 3]) && AllDigits(p[|p| - 2..])
    then Some(Date(Value(p[4..|p| - 6]), Value(p[|p| - 5..|p| - 3]), Value(p[|p| - 2..])))
    else None
  }

  /** A date path determines its date: month and day are always written with two digits. */
  lemma DatePathRoundTrip(d: Date)
    requires d.month < 100 && d.day < 100
    ensures ParseDatePath(DatePath(d)) == Some(d)
  {
    var y, m, dd := Decimal(d.year), Pad2(d.month), Pad2(d.day);
    var p := DatePath(d);
    assert p == "raw/" + y + "/" + m + "/" + dd;
    assert |p| == |y| + 10;
    assert p[..4] == "raw/";
    assert p[4..|p| - 6] == y;
    assert p[|p| - 6] == '/' && p[|p| - 3] == '/';
    assert p[|p| - 5..|p| - 3] == m;
    assert p[|p| - 2..] == dd;
    ValueOfDecimal(d.year);
    ValueOfPad2(d.month);
    ValueOfPad2(d.day);
  }

  /** Two different calendar dates never share a partition path. */
  lemma DatePathInjective(a: Date, b: Date)
    requires a.month < 100 && a.day < 100 && b.month < 100 && b.day < 100
    requires DatePath(a) == DatePath(b)
    ensures a == b
  {
    DatePathRoundTrip(a);
    DatePathRoundTrip(b);
  }

  lemma NonDigitNotIn(s: string, c: char)
    requires AllDigits(s) && !IsDigit(c)
    ensures c !in s
  {
  }

  /** The only letters in a blob name are those of "raw", of the kind and of ".json". */
  lemma LettersOfBlobName(k: BlobKind, t: DateTime, c: char)
    requires !IsDigit(c) && c !in "raw/_.json" && c !in KindName(k)
    ensures c !in BlobName(k, t)
  {
    NonDigitNotIn(Decimal(t.date.year), c);
    NonDigitNotIn(Pad2(t.date.month), c);
    NonDigitNotIn(Pad2(t.date.day), c);
    NonDigitNotIn(Pad2(t.hour), c);
    NonDigitNotIn(Pad2(t.minute), c);
    NonDigitNotIn(Pad2(t.second), c);
    assert c !in Stamp(t);
    assert c !in DatePath(t.date);
  }
}
