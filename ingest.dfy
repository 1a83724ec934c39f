/**
  ingest_r2.py: loads the prompt sheet, then in one transaction upserts the
  prompts "1".."300" and, for each of them, one image per dataset whose URL
  points at the dataset's file for that prompt in the object store.
  Environment variables, pandas and the connection are not modelled: the
  base URL, the sheet's cells and the database's fresh ids are parameters.
*/
module Ingest {
  import opened Wrappers
  import opened Uuids
  import opened Models
  import opened Sequences

  // ---------------------------------------------------------------- str(i) and f"{i:02d}"

  predicate IsDigit(c: char)
  {
    '0' <= c <= '9'
  }

  predicate AllDigits(s: string)
  {
    forall k :: 0 <= k < |s| ==> IsDigit(s[k])
  }

  function Digit(n: nat): (c: char)
    requires n < 10
    ensures IsDigit(c)
  {
    ('0' as int + n) as char
  }

  /** `str(n)` for a natural number: decimal digits, no leading zero. */
  function Decimal(n: nat): (s: string)
    ensures 1 <= |s| && AllDigits(s)
    ensures s[0] == '0' ==> n == 0
    decreases n
  {
    if n < 10 then [Digit(n)] else Decimal(n / 10) + [Digit(n % 10)]
  }

  /** The number a string of decimal digits denotes (leading zeros allowed). */
  function DecimalValue(s: string): nat
    requires AllDigits(s)
  {
    if s == [] then 0 else DecimalValue(s[..|s| - 1]) * 10 + (s[|s| - 1] as int - '0' as int)
  }

  lemma {:induction false} DecimalRoundTrip(n: nat)
    ensures DecimalValue(Decimal(n)) == n
    decreases n
  {
    if n >= 10 {
      DecimalRoundTrip(n / 10);
      var s := Decimal(n);
      assert s[..|s| - 1] == Decimal(n / 10);
    }
  }

  /** Distinct numbers get distinct prompt ids. */
  lemma DecimalInjective(a: nat, b: nat)
    ensures Decimal(a) == Decimal(b) ==> a == b
  {
    DecimalRoundTrip(a);
    DecimalRoundTrip(b);
  }

  /** `f"{n:02d}"`: the decimal digits, padded with zeros on the left to width 2. */
  function ZeroPad2(n: nat): (s: string)
    ensures |s| >= 2 && AllDigits(s)
    ensures |Decimal(n)| >= 2 ==> s == Decimal(n)
    ensures |Decimal(n)| < 2 ==> s == "0" + Decimal(n)
  {
    var d := Decimal(n);
    if |d| < 2 then "0" + d else d
  }

  lemma ZeroPad2Value(n: nat)
    ensures DecimalValue(ZeroPad2(n)) == n
  {
    DecimalRoundTrip(n);
    var s := ZeroPad2(n);
    if |Decimal(n)| < 2 {
      assert s[..|s| - 1] == "0";
    }
  }

  // ---------------------------------------------------------------- DATASETS and build_url

  /** An entry of DATASETS: the model label, the folder, and the file-name prefix of `name`. */
  datatype Dataset = Dataset(model: string, folder: string, prefix: string)

  const Datasets: seq<Dataset> := [
    Dataset("gpt5", "dataset/dataset_gpt", "gpt_"),
    Dataset("gemini25", "dataset/dataset_gemini", "gemini_"),
    Dataset("flux1_dev", "dataset/dataset_flux1_dev", "dev_"),
    Dataset("flux1_krea", "dataset/dataset_flux1_krea", "krea_"),
    Dataset("kolors", "dataset/dataset_kolors", "kolors_")
  ]

  const NumDatasets: nat := 5
  const PromptCount: nat := 300

  /** The file stem `cfg["name"](i)`, e.g. "gpt_07" or "kolors_123". */
  function Stem(prefix: string, i: nat): (s: string)
    ensures |s| >= |prefix| + 2
    ensures s == prefix + ZeroPad2(i)
    ensures s[..|prefix|] == prefix && AllDigits(s[|prefix|..])
    ensures DecimalValue(s[|prefix|..]) == i
  {
    ZeroPad2Value(i);
    assert (prefix + ZeroPad2(i))[|prefix|..] == ZeroPad2(i);
    prefix + ZeroPad2(i)
  }

  /** `BASE_URL` with exactly one trailing slash added when it has none. */
  function Root(base: string): (r: string)
    ensures |base| > 0 && base[|base| - 1] == '/' ==> r == base
    ensures !(|base| > 0 && base[|base| - 1] == '/') ==> r == base + "/"
    ensures r[|r| - 1] == '/' && r[..|base|] == base
  {
    if |base| > 0 && base[|base| - 1] == '/' then base else base + "/"
  }

  /** `f"{folder.rstrip('/')}/{stem}.png"` */
  function Relative(folder: string, stem: string): (r: string)
    ensures |r| >= |stem| + 5 && r[|r| - |stem| - 5..] == "/" + stem + ".png"
    ensures r[..|r| - |stem| - 5] == StripRight(folder, {'/'})
  {
    StripRight(folder, {'/'}) + ("/" + stem + ".png")
  }

  /**
    build_url. `urljoin` of a base ending in "/" and a relative path without
    scheme, leading slash or ".." segments appends the path to the base
    (the base is assumed to carry no query or fragment).
  */
  function BuildUrl(base: string, folder: string, stem: string): (url: string)
    ensures |url| > |base| && url[..|base|] == base
    ensures |url| >= |stem| + 5 && url[|url| - |stem| - 5..] == "/" + stem + ".png"
    ensures url[..|Root(base)|] == Root(base) && url[|Root(base)|..] == Relative(folder, stem)
  {
    var root, rel := Root(base), Relative(folder, stem);
    PrefixOfAppend(root, rel, |base|);
    SuffixOfAppend(root, rel, |stem| + 5);
    PrefixOfAppend(root, rel, |root|);
    root + rel
  }

  /** The URL of the image for prompt i in the folder of dataset entry `ds`. */
  function DatasetUrl(base: string, ds: Dataset, i: nat): string
  {
    BuildUrl(base, ds.folder, Stem(ds.prefix, i))
  }

  /** The URL of dataset d's image for prompt i. */
  function ImageUrl(base: string, d: nat, i: nat): string
    requires d < NumDatasets
  {
    DatasetUrl(base, Datasets[d], i)
  }

  /** A position where the folders of two different datasets differ. */
  function FolderDiff(d: nat, e: nat): nat
  {
    if {d, e} == {0, 1} then 17 else if {d, e} == {2, 3} then 22 else 16
  }

  lemma FoldersDiffer(d: nat, e: nat)
    requires d < NumDatasets && e < NumDatasets && d != e
    ensures FolderDiff(d, e) < |Datasets[d].folder| && FolderDiff(d, e) < |Datasets[e].folder|
    ensures Datasets[d].folder[FolderDiff(d, e)] != Datasets[e].folder[FolderDiff(d, e)]
  {
  }

  lemma FolderStripped(d: nat)
    requires d < NumDatasets
    ensures StripRight(Datasets[d].folder, {'/'}) == Datasets[d].folder
  {
  }

  lemma RelativeDatasetsDiffer(d: nat, i: nat, e: nat, j: nat)
    requires d < NumDatasets && e < NumDatasets && d != e
    ensures Relative(Datasets[d].folder, Stem(Datasets[d].prefix, i))
         != Relative(Datasets[e].folder, Stem(Datasets[e].prefix, j))
  {
    var relD := Relative(Datasets[d].folder, Stem(Datasets[d].prefix, i));
    var relE := Relative(Datasets[e].folder, Stem(Datasets[e].prefix, j));
    FolderStripped(d);
    FolderStripped(e);
    FoldersDiffer(d, e);
    var k := FolderDiff(d, e);
    assert relD[k] == Datasets[d].folder[k];
    assert relE[k] == Datasets[e].folder[k];
  }

  lemma PaddedDiffer(head: string, i: nat, j: nat)
    requires i != j
    ensures head + ZeroPad2(i) + ".png" != head + ZeroPad2(j) + ".png"
  {
    var a := head + ZeroPad2(i) + ".png";
    var b := head + ZeroPad2(j) + ".png";
    assert a[|head|..|a| - 4] == ZeroPad2(i);
    assert b[|head|..|b| - 4] == ZeroPad2(j);
    ZeroPad2Value(i);
    ZeroPad2Value(j);
  }

  lemma RelativeSplit(folder: string, prefix: string, i: nat)
    ensures Relative(folder, Stem(prefix, i)) == (StripRight(folder, {'/'}) + "/" + prefix) + ZeroPad2(i) + ".png"
  {
    var x, z := StripRight(folder, {'/'}), ZeroPad2(i);
    assert Stem(prefix, i) == prefix + z;
    calc {
      Relative(folder, prefix + z);
      x + ("/" + (prefix + z) + ".png");
      { assert "/" + (prefix + z) == ("/" + prefix) + z; }
      x + (("/" + prefix) + z + ".png");
      { assert x + (("/" + prefix) + z + ".png") == (x + ("/" + prefix)) + (z + ".png"); }
      (x + "/" + prefix) + z + ".png";
    }
  }

  lemma RelativePromptsDiffer(folder: string, prefix: string, i: nat, j: nat)
    requires i != j
    ensures Relative(folder, Stem(prefix, i)) != Relative(folder, Stem(prefix, j))
  {
    RelativeSplit(folder, prefix, i);
    RelativeSplit(folder, prefix, j);
    PaddedDiffer(StripRight(folder, {'/'}) + "/" + prefix, i, j);
  }

  /**
    Every (dataset, prompt) pair gets its own file: two image URLs built
    from the same base coincide only for the same dataset and prompt.
  */
  lemma ImageUrlsDistinct(base: string, d: nat, i: nat, e: nat, j: nat)
    requires d < NumDatasets && e < NumDatasets
    ensures ImageUrl(base, d, i) == ImageUrl(base, e, j) <==> d == e && i == j
  {
    var root := Root(base);
    var relD := Relative(Datasets[d].folder, Stem(Datasets[d].prefix, i));
    var relE := Relative(Datasets[e].folder, Stem(Datasets[e].prefix, j));
    assert relD == (root + relD)[|root|..];
    assert relE == (root + relE)[|root|..];
    if d != e {
      RelativeDatasetsDiffer(d, i, e, j);
    } else if i != j {
      RelativePromptsDiffer(Datasets[d].folder, Datasets[d].prefix, i, j);
    }
  }

  // ---------------------------------------------------------------- load_prompts_xlsx

  /** A cell as pandas reads it: some text, or an empty cell (NaN). */
  datatype Cell = Text(s: string) | Blank

  /** `str(cell)`: an empty cell is NaN, which prints as "nan". */
  function CellString(c: Cell): string
  {
    match c
    case Text(s) => s
    case Blank => "nan"
  }

  /** The characters `str.strip()` removes: those for which `str.isspace()` holds. */
  const Whitespace: set<char> := {
    '\t', '\n', '\U{000B}', '\U{000C}', '\r', '\U{001C}', '\U{001D}', '\U{001E}', '\U{001F}', ' ',
    '\U{0085}', '\U{00A0}', '\U{1680}', '\U{2000}', '\U{2001}', '\U{2002}', '\U{2003}', '\U{2004}',
    '\U{2005}', '\U{2006}', '\U{2007}', '\U{2008}', '\U{2009}', '\U{200A}', '\U{2028}', '\U{2029}',
    '\U{202F}', '\U{205F}', '\U{3000}'}

  function LowerChar(c: char): char
  {
    if 'A' <= c <= 'Z' then (c as int + 32) as char else c
  }

  /**
    `str.lower()` on ASCII letters. Other characters are kept; no other
    character lowers to a letter of "natural", so the column test below is
    the same as Python's.
  */
  function Lower(s: string): seq<char>
  {
    seq(|s|, k requires 0 <= k < |s| => LowerChar(s[k]))
  }

  predicate Contains(s: string, pat: string)
  {
    exists k :: 0 <= k <= |s| && pat <= s[k..]
  }

  /** `"natural" in str(c).lower()` */
  predicate IsTextColumn(header: string)
  {
    Contains(Lower(header), "natural")
  }

  /** The first column whose name contains "natural", ignoring case. */
  function TextColumn(headers: seq<string>): (r: Option<nat>)
    ensures r.None? <==> forall c :: 0 <= c < |headers| ==> !IsTextColumn(headers[c])
    ensures r.Some? ==> r.value < |headers| && IsTextColumn(headers[r.value])
    ensures r.Some? ==> forall c :: 0 <= c < r.value ==> !IsTextColumn(headers[c])
  {
    if headers == [] then None
    else if IsTextColumn(headers[0]) then Some(0)
    else match TextColumn(headers[1..])
      case None => None
      case Some(c) => Some(c + 1)
  }

  /** The prompt id of data row k (0-based): `str(idx + 1)`, so the sheet's second line is "1". */
  function RowId(k: nat): string
  {
    Decimal(k + 1)
  }

  /** `str(row[text_col]).strip()` */
  function CellText(row: seq<Cell>, col: nat): string
    requires col < |row|
  {
    Strip(CellString(row[col]), Whitespace)
  }

  /**
    load_prompts_xlsx on a sheet with the given column names and data rows
    (every row has one cell per column): row k (0-based) becomes prompt
    `str(k + 1)` with the stripped text of the sentence column.
  */
  method LoadPrompts(headers: seq<string>, rows: seq<seq<Cell>>) returns (r: Result<map<string, string>, string>)
    requires forall k :: 0 <= k < |rows| ==> |rows[k]| == |headers|
    ensures r.Err? <==> TextColumn(headers).None?
    ensures r.Ok? ==> r.value.Keys == set k | 0 <= k < |rows| :: RowId(k)
    ensures r.Ok? ==> forall k :: 0 <= k < |rows| ==>
      r.value[RowId(k)] == CellText(rows[k], TextColumn(headers).value)
  {
    var col := -1;
    var c := 0;
    while c < |headers|
      invariant 0 <= c <= |headers|
      invariant forall c' :: 0 <= c' < c ==> !IsTextColumn(headers[c'])
    {
      if IsTextColumn(headers[c]) {
        col := c;
        break;
      }
      c := c + 1;
    }
    if col < 0 {
      return Err("Couldn't find a column named 'Natural sentence' in Excel!");
    }
    assert TextColumn(headers) == Some(col);
    var d: map<string, string> := map[];
    var k := 0;
    while k < |rows|
      invariant 0 <= k <= |rows|
      invariant d.Keys == set k' | 0 <= k' < k :: RowId(k')
      invariant forall k' :: 0 <= k' < k ==> d[RowId(k')] == CellText(rows[k'], col)
    {
      var d' := d[RowId(k) := CellText(rows[k], col)];
      forall k' | 0 <= k' < k ensures d'[RowId(k')] == CellText(rows[k'], col) {
        DecimalInjective(k' + 1, k + 1);
      }
      d := d';
      k := k + 1;
    }
    return Ok(d);
  }
}
