/** The customer list page of the attribution section: contact normalisation
    for ad-platform audience matching, the search box, and the three CSV
    exports (Google Customer Match, Meta Custom Audiences, raw attribution). */
module CustomerList {
  import opened Options
  import opened Seqs
  import opened Text
  import opened JsNumbers

  /** A customer record; `email`, `phone` and `country` may be absent. */
  datatype Customer = Customer(
    id: string,
    name: string,
    email: Option<string>,
    phone: Option<string>,
    country: Option<string>,
    orderId: string,
    value: real,
    attributed: string,
    path: string)

  /** JavaScript truthiness of an optional string: present and non-empty. */
  predicate Present(s: Option<string>)
  {
    s.Some? && s.value != ""
  }

  predicate NoUpper(s: string)
  {
    forall i :: 0 <= i < |s| ==> !('A' <= s[i] <= 'Z')
  }

  /* ---------------------------------------------------------------------------
     normalizeEmail (lines 84-87)
  --------------------------------------------------------------------------- */

  /** Missing or empty gives ""; otherwise trimmed, then lower-cased. */
  function NormalizeEmail(email: Option<string>): (r: string)
    ensures !Present(email) ==> r == ""
    ensures Present(email) ==> |r| <= |email.value|
  {
    if !Present(email) then "" else ToLower(Trim(email.value))
  }

  /** The normalised address is trimmed and has no upper-case letter; it is
      empty exactly when the input is missing or blank. */
  lemma NormalizeEmailMeaning(email: Option<string>)
    ensures var r := NormalizeEmail(email);
            && Trimmed(r) && NoUpper(r)
            && (r == "" <==> !Present(email) || AllSpace(email.value))
  {
    if Present(email) {
      var t := Trim(email.value);
      TrimEmpty(email.value);
      ToLowerTrimmed(t);
      assert NoUpper(ToLower(t));
    }
  }

  /** The normalised address is the lower-cased slice of the input between its
      leading and trailing white space. */
  lemma NormalizeEmailSlice(e: string)
    requires e != ""
    ensures var r, i := NormalizeEmail(Some(e)), |e| - |TrimStart(e)|;
            && i + |r| <= |e| && AllSpace(e[..i]) && AllSpace(e[i + |r|..])
            && forall j :: 0 <= j < |r| ==> r[j] == LowerChar(e[i + j])
  {
    var t := Trim(e);
    assert NormalizeEmail(Some(e)) == ToLower(t);
    TrimIsSlice(e);
    LowerOfSlice(e, |e| - |TrimStart(e)|, t);
  }

  lemma LowerOfSlice(e: string, i: nat, t: string)
    requires i + |t| <= |e| && t == e[i..i + |t|]
    ensures forall j :: 0 <= j < |t| ==> ToLower(t)[j] == LowerChar(e[i + j])
  {
    forall j | 0 <= j < |t| ensures ToLower(t)[j] == LowerChar(e[i + j]) {
      assert e[i..i + |t|][j] == e[i + j];
    }
  }

  /** Normalising an already normalised address changes nothing. */
  lemma NormalizeEmailIdempotent(email: Option<string>)
    ensures NormalizeEmail(Some(NormalizeEmail(email))) == NormalizeEmail(email)
  {
    var r := NormalizeEmail(email);
    if r != "" {
      TrimOfTrimmed(r);
      ToLowerIdempotent(Trim(email.value));
    }
  }

  /* ---------------------------------------------------------------------------
     normalizePhone (lines 89-93)
  --------------------------------------------------------------------------- */

  /** The characters `/[^+\d]/g` does not remove. */
  predicate IsPhoneChar(c: char)
  {
    c == '+' || '0' <= c <= '9'
  }

  /** Missing or empty gives ""; otherwise every character other than '+' and
      the digits is removed (the `startsWith("+")` test picks the same value on
      both branches). */
  function NormalizePhone(phone: Option<string>): (r: string)
    ensures !Present(phone) ==> r == ""
    ensures Present(phone) ==> |r| <= |phone.value|
    ensures forall i :: 0 <= i < |r| ==> IsPhoneChar(r[i])
  {
    if !Present(phone) then ""
    else
      var cleaned := Filter(phone.value, IsPhoneChar);
      if StartsWith(cleaned, "+") then cleaned else cleaned
  }

  /** Exactly the '+' and digit characters survive, each as often as it
      occurs in the input, and in their original order. */
  lemma NormalizePhoneKeeps(p: string, c: char)
    ensures multiset(NormalizePhone(Some(p)))[c] == if IsPhoneChar(c) then multiset(p)[c] else 0
    ensures NormalizePhone(Some(p)) == Filter(p, IsPhoneChar)
  {
    FilterMultiset(p, IsPhoneChar, c);
    if p == "" {
      assert Filter(p, IsPhoneChar) == "";
    }
  }

  /** Normalising an already normalised number changes nothing. */
  lemma NormalizePhoneIdempotent(phone: Option<string>)
    ensures NormalizePhone(Some(NormalizePhone(phone))) == NormalizePhone(phone)
  {
    var r := NormalizePhone(phone);
    if r != "" {
      FilterAll(r, IsPhoneChar);
    }
  }

  /* ---------------------------------------------------------------------------
     toFirstLast (lines 95-100)
  --------------------------------------------------------------------------- */

  datatype FirstLast = FirstLast(fn: string, ln: string)

  /** Empty gives two empty names; one word is the first name; otherwise the
      last word is the last name and the earlier words, joined with single
      spaces, are the first name. */
  function ToFirstLast(name: string): (r: FirstLast)
    ensures name == "" ==> r == FirstLast("", "")
    ensures NoSpace(r.ln)
  {
    if name == "" then FirstLast("", "")
    else
      var parts := Split(Trim(name));
      if |parts| == 1 then FirstLast(parts[0], "")
      else FirstLast(Join(parts[..|parts| - 1], " "), parts[|parts| - 1])
  }

  /** A blank name gives two empty names. */
  lemma ToFirstLastBlank(name: string)
    requires AllSpace(name)
    ensures ToFirstLast(name) == FirstLast("", "")
  {
    if name != "" {
      TrimAllSpace(name);
      SplitEmpty();
    }
  }

  /** A name written as space-free words separated by single spaces comes
      apart into its words: the last word is the last name and the rest is
      the first name. */
  lemma ToFirstLastWords(words: seq<string>)
    requires |words| >= 2
    requires forall i :: 0 <= i < |words| ==> words[i] != [] && NoSpace(words[i])
    ensures ToFirstLast(Join(words, " ")) == FirstLast(Join(words[..|words| - 1], " "), words[|words| - 1])
  {
    NameSplits(words);
    ToFirstLastOfParts(Join(words, " "), words);
  }

  lemma ToFirstLastOfParts(name: string, parts: seq<string>)
    requires name != "" && Split(Trim(name)) == parts && |parts| >= 2
    ensures ToFirstLast(name) == FirstLast(Join(parts[..|parts| - 1], " "), parts[|parts| - 1])
  {
  }

  /** A single space-free word is the first name. */
  lemma ToFirstLastOneWord(w: string)
    requires w != [] && NoSpace(w)
    ensures ToFirstLast(w) == FirstLast(w, "")
  {
    NameSplits([w]);
    assert Join([w], " ") == w;
  }

  lemma NameSplits(words: seq<string>)
    requires |words| >= 1
    requires forall i :: 0 <= i < |words| ==> words[i] != [] && NoSpace(words[i])
    ensures Join(words, " ") != "" && Split(Trim(Join(words, " "))) == words
  {
    var name := Join(words, " ");
    JoinWordsTrimmed(words);
    JoinNonEmptyStart(words, " ");
    TrimOfTrimmed(name);
    SplitJoin(words);
  }

  /** Joining space-free, non-empty words with single spaces gives a trimmed
      string. */
  lemma {:induction false} JoinWordsTrimmed(words: seq<string>)
    requires |words| >= 1
    requires forall i :: 0 <= i < |words| ==> words[i] != [] && NoSpace(words[i])
    ensures Trimmed(Join(words, " "))
  {
    var n := |words|;
    JoinNonEmptyStart(words, " ");
    if n >= 2 {
      JoinSnoc(words, " ");
      var last := words[n - 1];
      var s := Join(words, " ");
      assert s[|s| - 1] == last[|last| - 1];
    }
  }

  /** For a name of two or more words, first name, a space and last name give
      back the trimmed name with each white-space run collapsed to one space. */
  lemma ToFirstLastCollapse(name: string)
    requires |Split(Trim(name))| >= 2
    ensures var r := ToFirstLast(name); r.fn + " " + r.ln == Collapse(Trim(name))
  {
    var parts := Split(Trim(name));
    SplitEmpty();
    JoinSnoc(parts, " ");
    JoinSplit(Trim(name));
  }

  /* ---------------------------------------------------------------------------
     The search box (lines 202-210)
  --------------------------------------------------------------------------- */

  /** `[r.name, r.email, r.phone, r.orderId, r.id, r.path]`, absent ones as "". */
  function SearchFields(r: Customer): (f: seq<string>)
    ensures |f| == 6
  {
    [r.name, r.email.GetOr(""), r.phone.GetOr(""), r.orderId, r.id, r.path]
  }

  /** Some searched field contains `q` once lower-cased. */
  predicate Matches(r: Customer, q: string)
  {
    var f := SearchFields(r);
    exists i :: 0 <= i < |f| && Contains(ToLower(f[i]), q)
  }

  function MatchesQuery(q: string): Customer -> bool
  {
    (r: Customer) => Matches(r, q)
  }

  /** The rows shown for a search box text. */
  function Filtered(rows: seq<Customer>, query: string): (out: seq<Customer>)
    ensures |out| <= |rows|
  {
    var q := ToLower(Trim(query));
    if q == "" then rows else Filter(rows, MatchesQuery(q))
  }

  /** A blank query shows every row; otherwise exactly the rows some of whose
      fields contain the trimmed, lower-cased query are shown. */
  lemma FilteredMeaning(rows: seq<Customer>, query: string, r: Customer)
    ensures AllSpace(query) ==> Filtered(rows, query) == rows
    ensures !AllSpace(query) ==>
              (r in Filtered(rows, query) <==> r in rows && Matches(r, ToLower(Trim(query))))
  {
    TrimEmpty(query);
    var q := ToLower(Trim(query));
    assert (q == "") <==> AllSpace(query);
    if q != "" {
      FilterMembership(rows, MatchesQuery(q), r);
    }
  }

  /** The search keeps the rows' order: filtering two runs of rows one after
      the other is filtering their concatenation. */
  lemma FilteredAppend(a: seq<Customer>, b: seq<Customer>, query: string)
    ensures Filtered(a + b, query) == Filtered(a, query) + Filtered(b, query)
  {
    var q := ToLower(Trim(query));
    if q != "" {
      FilterAppend(a, b, MatchesQuery(q));
    }
  }

  /** A row is found by its own id, typed in any letter case and surrounded by
      white space. */
  lemma FilteredFindsId(rows: seq<Customer>, r: Customer, pad: string)
    requires r in rows && AllSpace(pad)
    requires r.id != "" && Trimmed(r.id)
    ensures r in Filtered(rows, pad + r.id + pad)
  {
    TrimPadded(pad, r.id);
    var q := ToLower(r.id);
    MatchesOwnId(r);
    FilteredNonBlank(rows, pad + r.id + pad, q);
    FilterMembership(rows, MatchesQuery(q), r);
  }

  lemma FilteredNonBlank(rows: seq<Customer>, query: string, q: string)
    requires q == ToLower(Trim(query)) && q != ""
    ensures Filtered(rows, query) == Filter(rows, MatchesQuery(q))
  {
  }

  /** Every row matches its own id, lower-cased. */
  lemma MatchesOwnId(r: Customer)
    ensures Matches(r, ToLower(r.id))
  {
    var q := ToLower(r.id);
    ContainsSelf(q);
    assert SearchFields(r)[4] == r.id;
  }

  /* ---------------------------------------------------------------------------
     Exporters (lines 127-187)
  --------------------------------------------------------------------------- */

  /** `x ? await sha256Hex(x) : ""`, with the digest as a parameter. */
  function HashOrEmpty(x: string, hash: string -> string): string
  {
    if x == "" then "" else hash(x)
  }

  /** `(r.country || "").toUpperCase()`. */
  function CountryCode(r: Customer): (c: string)
    ensures !Present(r.country) ==> c == ""
    ensures Present(r.country) ==> |c| == |r.country.value|
    ensures forall i :: 0 <= i < |c| ==> !('a' <= c[i] <= 'z')
  {
    ToUpper(r.country.GetOr(""))
  }

  /** A hashed field is empty exactly when its input is, and holds the digest
      of the input otherwise, for a digest that is never empty (SHA-256 in hex
      is 64 characters). */
  lemma HashOrEmptyMeaning(x: string, hash: string -> string)
    requires |hash(x)| == 64
    ensures HashOrEmpty(x, hash) == "" <==> x == ""
    ensures x != "" ==> HashOrEmpty(x, hash) == hash(x)
  {
  }

  const GoogleHeader: seq<string> := ["hashed_email", "hashed_phone", "country"]

  /** One Google Customer Match line. */
  datatype GoogleRow = GoogleRow(email: string, phone: string, country: string)
  {
    function Fields(): seq<string>
    {
      [email, phone, country]
    }
  }

  function GoogleRowOf(r: Customer, hash: string -> string): GoogleRow
  {
    GoogleRow(
      HashOrEmpty(NormalizeEmail(r.email), hash),
      HashOrEmpty(NormalizePhone(r.phone), hash),
      CountryCode(r))
  }

  /** Each hashed field of a Google line is empty exactly when the normalised
      email or phone is, and holds its digest otherwise. */
  lemma GoogleRowMeaning(r: Customer, hash: string -> string)
    requires forall x :: |hash(x)| == 64
    ensures var g, e, p := GoogleRowOf(r, hash), NormalizeEmail(r.email), NormalizePhone(r.phone);
            && (g.email == "" <==> e == "") && (e != "" ==> g.email == hash(e))
            && (g.phone == "" <==> p == "") && (p != "" ==> g.phone == hash(p))
  {
    var e, p := NormalizeEmail(r.email), NormalizePhone(r.phone);
    HashOrEmptyMeaning(e, hash);
    HashOrEmptyMeaning(p, hash);
  }

  const MetaHeader: seq<string> := ["email", "phone", "fn", "ln", "country"]

  /** `part ? await sha256Hex(part.toLowerCase()) : ""`. */
  function HashName(part: string, hash: string -> string): string
  {
    if part == "" then "" else hash(ToLower(part))
  }

  /** One Meta Custom Audiences line: names are lower-cased before hashing,
      the country is not hashed. */
  datatype MetaRow = MetaRow(email: string, phone: string, fn: string, ln: string, country: string)
  {
    function Fields(): seq<string>
    {
      [email, phone, fn, ln, country]
    }
  }

  function MetaRowOf(r: Customer, hash: string -> string): MetaRow
  {
    var n := ToFirstLast(r.name);
    MetaRow(
      HashOrEmpty(NormalizeEmail(r.email), hash),
      HashOrEmpty(NormalizePhone(r.phone), hash),
      HashName(n.fn, hash),
      HashName(n.ln, hash),
      CountryCode(r))
  }

  /** The Meta line's email, phone and country are the Google line's. */
  lemma MetaSharesGoogle(r: Customer, hash: string -> string)
    ensures var m, g := MetaRowOf(r, hash), GoogleRowOf(r, hash);
            m.email == g.email && m.phone == g.phone && m.country == g.country
  {
  }

  /** A name field of a Meta line is empty exactly when that part of the name
      is, and holds the digest of the lower-cased part otherwise. */
  lemma MetaNamesMeaning(r: Customer, hash: string -> string)
    requires forall x :: |hash(x)| == 64
    ensures var m, n := MetaRowOf(r, hash), ToFirstLast(r.name);
            && (m.fn == "" <==> n.fn == "") && (n.fn != "" ==> m.fn == hash(ToLower(n.fn)))
            && (m.ln == "" <==> n.ln == "") && (n.ln != "" ==> m.ln == hash(ToLower(n.ln)))
  {
    var n := ToFirstLast(r.name);
    var a, b := ToLower(n.fn), ToLower(n.ln);
    assert |hash(a)| == 64 && |hash(b)| == 64;
  }

  const AttributionHeader: seq<string> :=
    ["id", "name", "email", "phone", "country", "orderId", "value", "attributed", "path"]

  /** `x.toFixed(2)` for a finite `x`: a '-' for a negative value, then the
      magnitude rounded to a whole number of cents, halves going up. */
  function ToFixed2(x: real): (s: string)
  {
    (if x < 0.0 then "-" else "") + Cents(Round(Abs(x) * 100.0))
  }

  /** A non-negative number of cents written as units, '.' and two digits. */
  function Cents(n: int): (s: string)
  {
    var c := if n < 0 then 0 else n;
    NatToString(c / 100) + "." + [DigitChar(c % 100 / 10), DigitChar(c % 10)]
  }

  /** The whole number of cents a `Cents` rendering stands for. */
  function CentsValue(s: string): int
  {
    if |s| >= 4 && s[|s| - 3] == '.' && forall i :: 0 <= i < |s| && i != |s| - 3 ==> '0' <= s[i] <= '9' then
      DigitsValue(s[..|s| - 3]) * 100 + DigitsValue(s[|s| - 2..])
    else -1
  }

  /** Reading the rendering back gives the cents it was written from. */
  lemma CentsRoundTrip(n: nat)
    ensures CentsValue(Cents(n)) == n
  {
    var u := NatToString(n / 100);
    var d1, d2 := n % 100 / 10, n % 10;
    assert Cents(n) == u + "." + [DigitChar(d1), DigitChar(d2)];
    CentsOfParts(u, d1, d2);
    NatToStringValue(n / 100);
    assert n % 100 == d1 * 10 + d2 && n == n / 100 * 100 + n % 100;
  }

  /** Units, a point and two digits read back as units * 100 plus the two
      digits. */
  lemma CentsOfParts(u: string, d1: nat, d2: nat)
    requires u != [] && forall i :: 0 <= i < |u| ==> '0' <= u[i] <= '9'
    requires d1 < 10 && d2 < 10
    ensures CentsValue(u + "." + [DigitChar(d1), DigitChar(d2)]) == DigitsValue(u) * 100 + d1 * 10 + d2
  {
    var t := [DigitChar(d1), DigitChar(d2)];
    var s := u + "." + t;
    assert s[..|s| - 3] == u && s[|s| - 2..] == t;
    TwoDigits(d1, d2);
    CentsShape(u, t);
    CentsValueOf(s);
  }

  lemma TwoDigits(d1: nat, d2: nat)
    requires d1 < 10 && d2 < 10
    ensures var t := [DigitChar(d1), DigitChar(d2)];
            && '0' <= t[0] <= '9' && '0' <= t[1] <= '9' && DigitsValue(t) == d1 * 10 + d2
  {
    var t := [DigitChar(d1), DigitChar(d2)];
    DigitCharValue(d1);
    DigitCharValue(d2);
    assert t[..1] == [DigitChar(d1)] && t[..1][..0] == [];
    assert DigitsValue(t[..1]) == d1;
  }

  lemma CentsShape(u: string, t: string)
    requires forall i :: 0 <= i < |u| ==> '0' <= u[i] <= '9'
    requires |t| == 2 && '0' <= t[0] <= '9' && '0' <= t[1] <= '9'
    ensures var s := u + "." + t;
            && |s| >= 3 && s[|s| - 3] == '.'
            && forall i :: 0 <= i < |s| && i != |s| - 3 ==> '0' <= s[i] <= '9'
  {
    var s := u + "." + t;
    forall i | 0 <= i < |s| && i != |s| - 3 ensures '0' <= s[i] <= '9' {
      if i < |u| {
        assert s[i] == u[i];
      } else {
        assert s[i] == t[i - |u| - 1];
      }
    }
  }

  lemma CentsValueOf(s: string)
    requires |s| >= 4 && s[|s| - 3] == '.'
    requires forall i :: 0 <= i < |s| && i != |s| - 3 ==> '0' <= s[i] <= '9'
    ensures CentsValue(s) == DigitsValue(s[..|s| - 3]) * 100 + DigitsValue(s[|s| - 2..])
  {
  }

  lemma DigitCharValue(d: nat)
    requires d < 10
    ensures '0' <= DigitChar(d) <= '9' && DigitChar(d) as int - '0' as int == d
  {
  }

  /** The number a `toFixed(2)` rendering stands for. */
  function ParseFixed2(s: string): real
  {
    if s != [] && s[0] == '-' then -(CentsValue(s[1..]) as real) / 100.0
    else CentsValue(s) as real / 100.0
  }

  /** Reading back what `toFixed(2)` writes gives the value to within half a
      cent. */
  lemma ToFixed2Close(x: real)
    ensures -0.005 <= ParseFixed2(ToFixed2(x)) - x <= 0.005
  {
    var n := Round(Abs(x) * 100.0);
    RoundNonNegative(Abs(x) * 100.0);
    ParseToFixed2(x, n);
    CloseArith(x, n);
  }

  lemma ParseToFixed2(x: real, n: nat)
    requires n == Round(Abs(x) * 100.0)
    ensures ParseFixed2(ToFixed2(x)) == (if x < 0.0 then -(n as real) else n as real) / 100.0
  {
    var c := Cents(n);
    CentsRoundTrip(n);
    CentsUnsigned(n);
    if x < 0.0 {
      ParseNegative(c);
      ToFixed2Negative(x, n);
    } else {
      ToFixed2NonNegative(x, n);
    }
  }

  lemma CloseArith(x: real, n: int)
    requires n as real - 0.5 <= Abs(x) * 100.0 < n as real + 0.5
    ensures x < 0.0 ==> -0.005 <= -(n as real) / 100.0 - x <= 0.005
    ensures x >= 0.0 ==> -0.005 <= n as real / 100.0 - x <= 0.005
  {
  }

  lemma ToFixed2Negative(x: real, n: int)
    requires x < 0.0 && n == Round(Abs(x) * 100.0)
    ensures ToFixed2(x) == "-" + Cents(n)
  {
  }

  lemma ToFixed2NonNegative(x: real, n: int)
    requires x >= 0.0 && n == Round(Abs(x) * 100.0)
    ensures ToFixed2(x) == Cents(n)
  {
    assert "" + Cents(n) == Cents(n);
  }

  lemma CentsUnsigned(n: nat)
    ensures Cents(n) != [] && Cents(n)[0] != '-'
  {
    var u := NatToString(n / 100);
    assert Cents(n)[0] == u[0];
  }

  lemma ParseNegative(c: string)
    ensures ParseFixed2("-" + c) == -(CentsValue(c) as real) / 100.0
  {
    assert ("-" + c)[1..] == c;
  }

  /** The fields of one raw attribution line: absent fields as "", the value
      with two decimals, the path between double quotes. */
  function AttributionFields(r: Customer): (f: seq<string>)
    ensures |f| == |AttributionHeader|
    ensures f[8] == "\"" + r.path + "\""
  {
    [ r.id, r.name, r.email.GetOr(""), r.phone.GetOr(""), r.country.GetOr(""),
      r.orderId, ToFixed2(r.value), r.attributed, "\"" + r.path + "\"" ]
  }

  function GoogleLine(hash: string -> string): Customer -> string
  {
    (r: Customer) => Join(GoogleRowOf(r, hash).Fields(), ",")
  }

  function MetaLine(hash: string -> string): Customer -> string
  {
    (r: Customer) => Join(MetaRowOf(r, hash).Fields(), ",")
  }

  function AttributionLine(r: Customer): string
  {
    Join(AttributionFields(r), ",")
  }

  /** `exportGoogleCSV` without the download: a header line, then one line per
      row in row order; the file text joins them with newlines. */
  method ExportGoogle(rows: seq<Customer>, hash: string -> string) returns (lines: seq<string>, text: string)
    ensures lines == [Join(GoogleHeader, ",")] + Map(rows, GoogleLine(hash))
    ensures text == Join(lines, "\n")
  {
    lines := [Join(GoogleHeader, ",")];
    for i := 0 to |rows|
      invariant lines == [Join(GoogleHeader, ",")] + Map(rows[..i], GoogleLine(hash))
    {
      var r := rows[i];
      var email := NormalizeEmail(r.email);
      var phone := NormalizePhone(r.phone);
      var country := ToUpper(r.country.GetOr(""));
      var hemail := if email != "" then hash(email) else "";
      var hphone := if phone != "" then hash(phone) else "";
      assert [hemail, hphone, country] == GoogleRowOf(r, hash).Fields();
      MapSnoc(rows, GoogleLine(hash), i, [Join(GoogleHeader, ",")], Join([hemail, hphone, country], ","));
      lines := lines + [Join([hemail, hphone, country], ",")];
    }
    assert rows[..|rows|] == rows;
    text := Join(lines, "\n");
  }

  /** `exportMetaCSV` without the download. */
  method ExportMeta(rows: seq<Customer>, hash: string -> string) returns (lines: seq<string>, text: string)
    ensures lines == [Join(MetaHeader, ",")] + Map(rows, MetaLine(hash))
    ensures text == Join(lines, "\n")
  {
    lines := [Join(MetaHeader, ",")];
    for i := 0 to |rows|
      invariant lines == [Join(MetaHeader, ",")] + Map(rows[..i], MetaLine(hash))
    {
      var r := rows[i];
      var email := NormalizeEmail(r.email);
      var phone := NormalizePhone(r.phone);
      var n := ToFirstLast(r.name);
      var country := ToUpper(r.country.GetOr(""));
      var hemail := if email != "" then hash(email) else "";
      var hphone := if phone != "" then hash(phone) else "";
      var hfn := HashName(n.fn, hash);
      var hln := HashName(n.ln, hash);
      assert [hemail, hphone, hfn, hln, country] == MetaRowOf(r, hash).Fields();
      MapSnoc(rows, MetaLine(hash), i, [Join(MetaHeader, ",")], Join([hemail, hphone, hfn, hln, country], ","));
      lines := lines + [Join([hemail, hphone, hfn, hln, country], ",")];
    }
    assert rows[..|rows|] == rows;
    text := Join(lines, "\n");
  }

  /** `exportAttributionCSV` without the download. */
  method ExportAttribution(rows: seq<Customer>) returns (lines: seq<string>, text: string)
    ensures lines == [Join(AttributionHeader, ",")] + Map(rows, AttributionLine)
    ensures text == Join(lines, "\n")
  {
    lines := [Join(AttributionHeader, ",")];
    for i := 0 to |rows|
      invariant lines == [Join(AttributionHeader, ",")] + Map(rows[..i], AttributionLine)
    {
      var r := rows[i];
      var line := Join([r.id, r.name, r.email.GetOr(""), r.phone.GetOr(""), r.country.GetOr(""),
                        r.orderId, ToFixed2(r.value), r.attributed, "\"" + r.path + "\""], ",");
      MapSnoc(rows, AttributionLine, i, [Join(AttributionHeader, ",")], line);
      lines := lines + [line];
    }
    assert rows[..|rows|] == rows;
    text := Join(lines, "\n");
  }
}
