/**
 Asset references: keys of the managed bucket, the URLs that stand for them, and
 which of them may be deleted.
 */
module Storage {
  import opened Options

  const PRODUCTS := "products"
  const LOGO := "logo"
  const PAYMENT_METHODS := "payment-methods"
  const RECEIPTS := "comprobantes"

  // ------------------------------------------------------------- text helpers

  predicate IsSpace(c: char) {
    var n := c as int;
    9 <= n <= 13 || 28 <= n <= 32 || n in {0x85, 0xA0, 0x1680, 0x2028, 0x2029, 0x202F, 0x205F, 0x3000}
    || 0x2000 <= n <= 0x200A
  }

  predicate IsAlnum(c: char) { 'a' <= c <= 'z' || 'A' <= c <= 'Z' || '0' <= c <= '9' }

  function LowerChar(c: char): char {
    if 'A' <= c <= 'Z' then c - 'A' + 'a' else c
  }

  function Lower(s: string): (r: string)
    ensures |r| == |s|
  {
    seq(|s|, i requires 0 <= i < |s| => LowerChar(s[i]))
  }

  /** Positions [i, n) without the spaces at both ends. */
  function Trim(s: string, i: nat, n: nat): string
    requires i <= n <= |s|
    decreases n - i
  {
    if i < n && IsSpace(s[i]) then Trim(s, i + 1, n)
    else if i < n && IsSpace(s[n - 1]) then Trim(s, i, n - 1)
    else s[i..n]
  }

  function Strip(s: string): string { Trim(s, 0, |s|) }

  predicate At(s: string, part: string, i: nat) {
    i + |part| <= |s| && s[i..i + |part|] == part
  }

  predicate Contains(s: string, part: string) {
    exists i | 0 <= i <= |s| :: At(s, part, i)
  }

  // ------------------------------------------------------- managed references

  /** `_key_if_managed`: the rest after the first bucket prefix the value starts
      with, ignoring letter case in the prefix. */
  function KeyIfManaged(prefixes: seq<string>, value: string): Option<string> {
    if prefixes == [] then None
    else
      var p := prefixes[0];
      if |p| <= |value| && Lower(value[..|p|]) == Lower(p) then Some(value[|p|..])
      else KeyIfManaged(prefixes[1..], value)
  }

  /** `normalize_asset_ref` */
  function Normalize(prefixes: seq<string>, value: Option<string>): Option<string> {
    if value.None? || Strip(value.value) == "" then None
    else
      var key := KeyIfManaged(prefixes, Strip(value.value));
      if key.Some? then key else Some(Strip(value.value))
  }

  /** `is_managed_ref` */
  predicate IsManaged(value: string) { !Contains(value, "://") }

  /** `object_key_for_deletion` */
  function ObjectKeyForDeletion(prefixes: seq<string>, value: Option<string>): Option<string> {
    if value.None? || Strip(value.value) == "" then None
    else
      var key := KeyIfManaged(prefixes, Strip(value.value));
      if key.Some? then key
      else if Contains(Strip(value.value), "://") then None
      else Some(Strip(value.value))
  }

  /** `asset_display_url`; the first prefix is the address of the assets' own domain. */
  function DisplayUrl(prefixes: seq<string>, value: Option<string>): Option<string>
    requires prefixes != []
  {
    if value.None? || Strip(value.value) == "" then None
    else
      var key := KeyIfManaged(prefixes, Strip(value.value));
      if key.Some? then Some(prefixes[0] + key.value)
      else if Contains(Strip(value.value), "://") then Some(Strip(value.value))
      else Some(prefixes[0] + Strip(value.value))
  }

  predicate IsName(name: string) {
    && 1 <= |name| <= 200
    && IsAlnum(name[0])
    && forall i | 0 <= i < |name| :: IsAlnum(name[i]) || name[i] in {'.', '_', '-'}
  }

  function Directory(schema: string, folder: string): string { schema + "/" + folder + "/" }

  /** `validate_asset_key` accepts exactly `{schema}/{folder}/{name}`. */
  predicate ValidKey(value: string, schema: string, folder: string) {
    var dir := Directory(schema, folder);
    && dir <= value
    && IsName(value[|dir|..])
    && !Contains(value, "..")
  }

  /** `deletable_key` */
  function DeletableKey(prefixes: seq<string>, value: Option<string>, schema: string, folder: string): Option<string> {
    var key := ObjectKeyForDeletion(prefixes, value);
    if key.Some? && ValidKey(key.value, schema, folder) then key else None
  }

  /** `_reference_candidates` */
  function Candidates(prefixes: seq<string>, key: string): seq<string> {
    [key] + seq(|prefixes|, i requires 0 <= i < |prefixes| => prefixes[i] + key)
  }

  // -------------------------------------------------- normalising again and again

  lemma StripShortens(s: string)
    ensures |Strip(s)| <= |s| && (|Strip(s)| == |s| ==> Strip(s) == s)
  {
    TrimShortens(s, 0, |s|);
  }

  lemma {:induction false} TrimShortens(s: string, i: nat, n: nat)
    requires i <= n <= |s|
    ensures |Trim(s, i, n)| <= n - i && (|Trim(s, i, n)| == n - i ==> Trim(s, i, n) == s[i..n])
    decreases n - i
  {
    if i < n && IsSpace(s[i]) { TrimShortens(s, i + 1, n); }
    else if i < n && IsSpace(s[n - 1]) { TrimShortens(s, i, n - 1); }
  }

  lemma {:induction false} KeyIsShorter(prefixes: seq<string>, value: string)
    ensures var key := KeyIfManaged(prefixes, value);
            key.Some? ==> |key.value| <= |value| && (|key.value| == |value| ==> key.value == value)
  {
    if prefixes != [] { KeyIsShorter(prefixes[1..], value); }
  }

  /** Normalising changes nothing or leaves less. */
  lemma NormalShortens(prefixes: seq<string>, value: Option<string>)
    ensures var normal := Normalize(prefixes, value);
            normal != value && normal.Some? ==> value.Some? && |normal.value| < |value.value|
  {
    if value.Some? {
      StripShortens(value.value);
      KeyIsShorter(prefixes, Strip(value.value));
    }
  }

  /** What a reference ends up as when it is normalised again and again. */
  function Settled(prefixes: seq<string>, value: Option<string>): Option<string>
    decreases if value.Some? then |value.value| + 1 else 0
  {
    var normal := Normalize(prefixes, value);
    if normal.None? || normal == value then normal
    else
      NormalShortens(prefixes, value);
      Settled(prefixes, normal)
  }

  lemma SettledOnce(prefixes: seq<string>, value: Option<string>)
    ensures Settled(prefixes, Normalize(prefixes, value)) == Settled(prefixes, value)
  {
  }

  lemma {:induction false} SettledIsFixed(prefixes: seq<string>, value: Option<string>)
    ensures Normalize(prefixes, Settled(prefixes, value)) == Settled(prefixes, value)
    decreases if value.Some? then |value.value| + 1 else 0
  {
    var normal := Normalize(prefixes, value);
    if normal.Some? && normal != value {
      NormalShortens(prefixes, value);
      SettledIsFixed(prefixes, normal);
    }
  }

  // -------------------------------------------------------------- properties

  /** Configured base addresses carry a scheme; schema names are identifiers. */
  predicate Addresses(prefixes: seq<string>) {
    forall p | p in prefixes :: ':' in p
  }

  predicate PlainSchema(schema: string) {
    forall c | c in schema :: c != ':' && !IsSpace(c)
  }

  predicate KnownFolder(folder: string) {
    folder in {PRODUCTS, LOGO, PAYMENT_METHODS, RECEIPTS}
  }

  /** A key names one business and one folder: keys of different businesses or
      folders never coincide. */
  lemma KeyNamesOnePlace(key: string, s1: string, f1: string, s2: string, f2: string)
    requires KnownFolder(f1) && KnownFolder(f2)
    requires ValidKey(key, s1, f1) && ValidKey(key, s2, f2)
    ensures s1 == s2 && f1 == f2
  {
    var d1, d2 := Directory(s1, f1), Directory(s2, f2);
    var n1, n2 := key[|d1|..], key[|d2|..];
    assert key == (s1 + "/" + f1) + "/" + n1 == (s2 + "/" + f2) + "/" + n2;
    LastPart(s1 + "/" + f1, n1, s2 + "/" + f2, n2);
    LastPart(s1, f1, s2, f2);
  }

  /** What follows the last slash, and what precedes it, are determined. */
  lemma LastPart(a: string, x: string, b: string, y: string)
    requires a + "/" + x == b + "/" + y && '/' !in x && '/' !in y
    ensures a == b && x == y
  {
    var s := a + "/" + x;
    assert s[|a|] == '/' && s[|b|] == '/';
    assert forall i | |a| < i < |s| :: s[i] == x[i - |a| - 1];
    assert forall i | |b| < i < |s| :: s[i] == y[i - |b| - 1];
    assert |a| == |b|;
    assert a == s[..|a|] && b == s[..|b|];
    assert x == s[|a| + 1..] && y == s[|b| + 1..];
  }

  lemma StripPlain(s: string)
    requires s != "" && !IsSpace(s[0]) && !IsSpace(s[|s| - 1])
    ensures Strip(s) == s
  {
  }

  predicate SameLetter(c: char, d: char) {
    c == d || ('A' <= c <= 'Z' && d as int == c as int + 32) || ('A' <= d <= 'Z' && c as int == d as int + 32)
  }

  /** Lower case forgets exactly the case of letters. */
  lemma LowerForgetsCase(a: string, b: string)
    ensures Lower(a) == Lower(b) <==> |a| == |b| && forall i | 0 <= i < |a| :: SameLetter(a[i], b[i])
  {
    forall i | 0 <= i < |a| && |a| == |b| ensures Lower(a)[i] == Lower(b)[i] <==> SameLetter(a[i], b[i]) {}
  }

  lemma LowerKeepsColon(a: string, b: string)
    requires Lower(a) == Lower(b) && ':' in a
    ensures ':' in b
  {
    var i :| 0 <= i < |a| && a[i] == ':';
    assert Lower(a)[i] == LowerChar(b[i]) == ':';
    assert b[i] in b;
  }

  lemma {:induction false} PrefixNeedsColon(prefixes: seq<string>, value: string)
    requires Addresses(prefixes) && ':' !in value
    ensures KeyIfManaged(prefixes, value) == None
  {
    if prefixes != [] {
      var p := prefixes[0];
      assert p in prefixes;
      if |p| <= |value| && Lower(value[..|p|]) == Lower(p) {
        LowerKeepsColon(p, value[..|p|]);
        assert false;
      }
      PrefixNeedsColon(prefixes[1..], value);
    }
  }

  lemma ValidKeyShape(key: string, schema: string, folder: string)
    requires PlainSchema(schema) && KnownFolder(folder) && ValidKey(key, schema, folder)
    ensures ':' !in key && key != "" && !IsSpace(key[0]) && !IsSpace(key[|key| - 1])
    ensures IsManaged(key)
  {
    var dir := Directory(schema, folder);
    var name := key[|dir|..];
    assert key == dir + name;
    assert forall c | c in folder :: c != ':';
    assert key[|key| - 1] == name[|name| - 1];
    assert key[0] == if schema == "" then '/' else schema[0];
    forall i | 0 <= i <= |key| ensures !At(key, "://", i) {
      if i + 3 <= |key| {
        assert key[i] in key;
        assert key[i..i + 3][0] == key[i];
      }
    }
  }

  /** A valid key is its own normal form, is not taken for a foreign address,
      and is what would be deleted. */
  lemma ValidKeyIsNormal(prefixes: seq<string>, key: string, schema: string, folder: string)
    requires Addresses(prefixes) && PlainSchema(schema) && KnownFolder(folder)
    requires ValidKey(key, schema, folder)
    ensures IsManaged(key)
    ensures Normalize(prefixes, Some(key)) == Some(key)
    ensures DeletableKey(prefixes, Some(key), schema, folder) == Some(key)
  {
    ValidKeyShape(key, schema, folder);
    StripPlain(key);
    PrefixNeedsColon(prefixes, key);
  }

  /** A file can be deleted under a stored reference exactly if the normal form of the
      reference is a valid key of that business and folder. */
  lemma DeletableIff(prefixes: seq<string>, value: Option<string>, schema: string, folder: string, key: string)
    requires PlainSchema(schema) && KnownFolder(folder)
    ensures DeletableKey(prefixes, value, schema, folder) == Some(key)
            <==> Normalize(prefixes, value) == Some(key) && ValidKey(key, schema, folder)
  {
    if ValidKey(key, schema, folder) { ValidKeyShape(key, schema, folder); }
  }

  predicate Spaces(s: string) { forall i | 0 <= i < |s| :: IsSpace(s[i]) }

  predicate Bare(s: string) { s == "" || (!IsSpace(s[0]) && !IsSpace(s[|s| - 1])) }

  lemma {:induction false} TrimMeans(s: string, i: nat, n: nat, j: nat, m: nat)
    requires i <= j <= m <= n <= |s| && Bare(s[j..m])
    requires (forall k | i <= k < j :: IsSpace(s[k])) && (forall k | m <= k < n :: IsSpace(s[k]))
    ensures Trim(s, i, n) == s[j..m]
    decreases n - i
  {
    if i < n {
      if i < j { TrimMeans(s, i + 1, n, j, m); }
      else if j == m { TrimMeans(s, i + 1, n, i + 1, i + 1); }
      else {
        assert s[j..m][0] == s[j] && s[j..m][m - j - 1] == s[m - 1];
        if m < n { TrimMeans(s, i, n - 1, j, m); }
      }
    }
  }

  /** Surrounding space does not change what a reference stands for, or what may be
      deleted under it; nothing but space stands for nothing. */
  lemma SpaceIsIgnored(prefixes: seq<string>, before: string, text: string, after: string, schema: string,
                       folder: string)
    requires Spaces(before) && Spaces(after) && Bare(text)
    ensures var value := Some(before + text + after);
            && Normalize(prefixes, value) == Normalize(prefixes, Some(text))
            && DeletableKey(prefixes, value, schema, folder) == DeletableKey(prefixes, Some(text), schema, folder)
            && (text == "" ==> Normalize(prefixes, value) == None)
  {
    var s := before + text + after;
    assert s[|before|..|before| + |text|] == text;
    forall k | |before| + |text| <= k < |s| ensures IsSpace(s[k]) { assert s[k] == after[k - |before| - |text|]; }
    TrimMeans(s, 0, |s|, |before|, |before| + |text|);
    assert text[0..|text|] == text;
    TrimMeans(text, 0, |text|, 0, |text|);
  }

  /** The key behind a bucket prefix, in any letter case, stands for the key, unless
      an earlier prefix shadows it. */
  lemma AnyCaseNormalizes(prefixes: seq<string>, key: string, schema: string, folder: string, i: nat, host: string)
    requires Addresses(prefixes) && PlainSchema(schema) && KnownFolder(folder)
    requires ValidKey(key, schema, folder)
    requires i < |prefixes| && Lower(host) == Lower(prefixes[i]) && host != "" && !IsSpace(host[0])
    requires forall j | 0 <= j < i :: !(|prefixes[j]| <= |host + key|
               && Lower((host + key)[..|prefixes[j]|]) == Lower(prefixes[j]))
    ensures Normalize(prefixes, Some(host + key)) == Some(key)
  {
    ValidKeyShape(key, schema, folder);
    StripPlain(host + key);
    assert |host| == |Lower(host)| == |prefixes[i]|;
    assert (host + key)[..|host|] == host && (host + key)[|host|..] == key;
    FirstPrefix(prefixes, host + key, i);
  }

  /** Every spelling the reference scan looks for stands for the key. */
  lemma CandidatesNormalize(prefixes: seq<string>, key: string, schema: string, folder: string, i: nat)
    requires Addresses(prefixes) && PlainSchema(schema) && KnownFolder(folder)
    requires ValidKey(key, schema, folder)
    requires i < |prefixes| && prefixes[i] != "" && !IsSpace(prefixes[i][0])
    requires forall j | 0 <= j < i :: !(|prefixes[j]| <= |prefixes[i] + key|
               && Lower((prefixes[i] + key)[..|prefixes[j]|]) == Lower(prefixes[j]))
    ensures Candidates(prefixes, key)[i + 1] == prefixes[i] + key
    ensures Normalize(prefixes, Some(prefixes[i] + key)) == Some(key)
  {
    AnyCaseNormalizes(prefixes, key, schema, folder, i, prefixes[i]);
  }

  lemma {:induction false} FirstPrefix(prefixes: seq<string>, value: string, i: nat)
    requires i < |prefixes|
    requires |prefixes[i]| <= |value| && Lower(value[..|prefixes[i]|]) == Lower(prefixes[i])
    requires forall j | 0 <= j < i :: !(|prefixes[j]| <= |value| && Lower(value[..|prefixes[j]|]) == Lower(prefixes[j]))
    ensures KeyIfManaged(prefixes, value) == Some(value[|prefixes[i]|..])
  {
    if i > 0 { FirstPrefix(prefixes[1..], value, i - 1); }
  }

  // ----------------------------------------------------- showing and sending back

  /** Prefixes as configured: an address, without leading space. */
  predicate Configured(prefixes: seq<string>) {
    forall p | p in prefixes :: ':' in p && !IsSpace(p[0])
  }

  /** There is a domain for assets; its prefix ends in a slash. */
  predicate HasDomain(prefixes: seq<string>) {
    Configured(prefixes) && prefixes != [] && prefixes[0] != "" && prefixes[0][|prefixes[0]| - 1] == '/'
  }

  lemma {:induction false} TrimIsBare(s: string, i: nat, n: nat)
    requires i <= n <= |s|
    ensures Bare(Trim(s, i, n))
    decreases n - i
  {
    if i < n && IsSpace(s[i]) { TrimIsBare(s, i + 1, n); }
    else if i < n && IsSpace(s[n - 1]) { TrimIsBare(s, i, n - 1); }
    else if i < n { assert s[i..n][0] == s[i] && s[i..n][n - i - 1] == s[n - 1]; }
  }

  lemma StripBare(s: string)
    requires Bare(s)
    ensures Strip(s) == s
  {
    if s != "" { StripPlain(s); }
  }

  lemma KeyEndsAlike(prefixes: seq<string>, value: string)
    requires KeyIfManaged(prefixes, value).Some? && Bare(value)
    ensures var key := KeyIfManaged(prefixes, value).value; key == "" || !IsSpace(key[|key| - 1])
  {
    if prefixes != [] && !(|prefixes[0]| <= |value| && Lower(value[..|prefixes[0]|]) == Lower(prefixes[0])) {
      KeyEndsAlike(prefixes[1..], value);
    }
  }

  /** An address shown for a key, sent back. */
  lemma ShownKeyNormalizes(prefixes: seq<string>, key: string)
    requires HasDomain(prefixes)
    requires key == "" || !IsSpace(key[|key| - 1])
    ensures Normalize(prefixes, Some(prefixes[0] + key)) == Some(key)
  {
    var shown, base := prefixes[0] + key, prefixes[0];
    assert base in prefixes && shown[0] == base[0];
    assert shown[|shown| - 1] == if key == "" then '/' else key[|key| - 1];
    StripPlain(shown);
    assert shown[..|base|] == base && shown[|base|..] == key;
  }

  /** What a form was shown and sends back unchanged has the normal form of what is
      stored, whatever is stored. */
  lemma ShownComesBack(prefixes: seq<string>, value: Option<string>)
    requires HasDomain(prefixes)
    ensures Normalize(prefixes, DisplayUrl(prefixes, value)) == Normalize(prefixes, value)
  {
    if value.Some? && Strip(value.value) != "" {
      var text := Strip(value.value);
      TrimIsBare(value.value, 0, |value.value|);
      StripBare(text);
      if KeyIfManaged(prefixes, text).Some? {
        KeyEndsAlike(prefixes, text);
        ShownKeyNormalizes(prefixes, KeyIfManaged(prefixes, text).value);
      } else if !Contains(text, "://") {
        ShownKeyNormalizes(prefixes, text);
      }
    }
  }

  /** The normal form is shown like what is stored exactly if a key behind a prefix is
      not empty, has no surrounding space and is not itself an address. */
  lemma NormalIsShownAlikeIff(prefixes: seq<string>, value: Option<string>)
    requires HasDomain(prefixes)
    ensures DisplayUrl(prefixes, Normalize(prefixes, value)) == DisplayUrl(prefixes, value)
            <==> (value.Some? && Strip(value.value) != "" && KeyIfManaged(prefixes, Strip(value.value)).Some? ==>
                    var key := Normalize(prefixes, value);
                    Normalize(prefixes, key) == key && IsManaged(key.value))
  {
    if value.Some? && Strip(value.value) != "" {
      var text := Strip(value.value);
      TrimIsBare(value.value, 0, |value.value|);
      StripBare(text);
      if KeyIfManaged(prefixes, text).Some? { KeyShownAlikeIff(prefixes, KeyIfManaged(prefixes, text).value); }
    }
  }

  lemma {:induction false} RestIsShorter(prefixes: seq<string>, value: string)
    requires Configured(prefixes)
    ensures var key := KeyIfManaged(prefixes, value); key.Some? ==> |key.value| < |value|
  {
    if prefixes != [] {
      assert prefixes[0] in prefixes && prefixes[0] != "";
      RestIsShorter(prefixes[1..], value);
    }
  }

  lemma KeyShownAlikeIff(prefixes: seq<string>, key: string)
    requires HasDomain(prefixes)
    ensures DisplayUrl(prefixes, Some(key)) == Some(prefixes[0] + key)
            <==> Normalize(prefixes, Some(key)) == Some(key) && IsManaged(key)
  {
    StripShortens(key);
    RestIsShorter(prefixes, Strip(key));
    assert |prefixes[0] + key| > |key|;
    var shorter := KeyIfManaged(prefixes, Strip(key));
    SamePrefixSameRest(prefixes[0], if shorter.Some? then shorter.value else Strip(key), key);
  }

  lemma SamePrefixSameRest(prefix: string, a: string, b: string)
    ensures prefix + a == prefix + b <==> a == b
  {
    assert (prefix + a)[|prefix|..] == a && (prefix + b)[|prefix|..] == b;
  }

  /** There is nothing to delete exactly if showing leaves the normal form as it is;
      otherwise what would be deleted is the normal form, and is shown in the assets'
      own domain. */
  lemma NothingToDeleteIff(prefixes: seq<string>, value: Option<string>)
    requires Configured(prefixes) && prefixes != []
    ensures var key, normal := ObjectKeyForDeletion(prefixes, value), Normalize(prefixes, value);
            && (key.None? <==> DisplayUrl(prefixes, value) == normal)
            && (key.Some? ==> normal == key && DisplayUrl(prefixes, value) == Some(prefixes[0] + key.value))
  {
    assert prefixes[0] in prefixes && prefixes[0] != "";
    var key := ObjectKeyForDeletion(prefixes, value);
    if key.Some? { assert |prefixes[0] + key.value| > |key.value|; }
  }

  // ------------------------------------------- which spellings the scan sees

  /** A text that stands for a key is, without surrounding space, the key alone or
      behind a prefix in some letter case. */
  lemma {:induction false} ManagedShape(prefixes: seq<string>, value: string, key: string)
    requires KeyIfManaged(prefixes, value) == Some(key)
    ensures |key| <= |value| && value == value[..|value| - |key|] + key
    ensures exists p :: p in prefixes && Lower(value[..|value| - |key|]) == Lower(p)
  {
    var p := prefixes[0];
    if |p| <= |value| && Lower(value[..|p|]) == Lower(p) {
      assert p in prefixes;
      assert value[..|value| - |key|] == value[..|p|];
    } else {
      ManagedShape(prefixes[1..], value, key);
      var q :| q in prefixes[1..] && Lower(value[..|value| - |key|]) == Lower(q);
      assert q in prefixes;
    }
  }

  lemma NormalShape(prefixes: seq<string>, value: string, key: string)
    requires Normalize(prefixes, Some(value)) == Some(key)
    ensures var v := Strip(value);
            && |key| <= |v| && v == v[..|v| - |key|] + key
            && (v == key || exists p :: p in prefixes && Lower(v[..|v| - |key|]) == Lower(p))
  {
    var v := Strip(value);
    if KeyIfManaged(prefixes, v).Some? { ManagedShape(prefixes, v, key); }
  }

  /** Of the texts that stand for a key the scan of products, receipts and logos
      sees exactly those without surrounding space that are the key, or start with
      a prefix in its very spelling. */
  lemma SeenIff(prefixes: seq<string>, key: string, schema: string, folder: string, value: string)
    requires Configured(prefixes) && PlainSchema(schema) && KnownFolder(folder) && ValidKey(key, schema, folder)
    requires Normalize(prefixes, Some(value)) == Some(key)
    ensures value in Candidates(prefixes, key)
            <==> && Strip(value) == value
                 && (value == key || (|key| <= |value| && value[..|value| - |key|] in prefixes))
  {
    ValidKeyShape(key, schema, folder);
    SeenIfPlain(prefixes, key, value);
  }

  lemma SeenIfPlain(prefixes: seq<string>, key: string, value: string)
    requires Configured(prefixes) && key != "" && !IsSpace(key[0]) && !IsSpace(key[|key| - 1])
    requires Normalize(prefixes, Some(value)) == Some(key)
    ensures value in Candidates(prefixes, key)
            <==> && Strip(value) == value
                 && (value == key || (|key| <= |value| && value[..|value| - |key|] in prefixes))
  {
    if value == key {
      StripPlain(key);
      assert Candidates(prefixes, key)[0] == key;
    } else {
      NormalShape(prefixes, value, key);
      BehindPrefixIff(prefixes, key, value);
    }
  }

  lemma BehindPrefixIff(prefixes: seq<string>, key: string, value: string)
    requires Configured(prefixes) && key != "" && !IsSpace(key[|key| - 1]) && value != key
    requires Strip(value) == value ==> |key| <= |value| && value == value[..|value| - |key|] + key
    ensures value in Candidates(prefixes, key)
            <==> Strip(value) == value && |key| <= |value| && value[..|value| - |key|] in prefixes
  {
    if value in Candidates(prefixes, key) { CandidateHasPrefix(prefixes, key, value); }
    if Strip(value) == value && value[..|value| - |key|] in prefixes {
      PrefixedIsCandidate(prefixes, key, value[..|value| - |key|]);
    }
  }

  lemma PrefixedIsCandidate(prefixes: seq<string>, key: string, prefix: string)
    requires prefix in prefixes
    ensures prefix + key in Candidates(prefixes, key)
  {
    var i :| 0 <= i < |prefixes| && prefixes[i] == prefix;
    assert Candidates(prefixes, key)[i + 1] == prefix + key;
  }

  lemma CandidateHasPrefix(prefixes: seq<string>, key: string, value: string)
    requires Configured(prefixes) && key != "" && !IsSpace(key[|key| - 1])
    requires value in Candidates(prefixes, key) && value != key
    ensures Strip(value) == value && |key| <= |value| && value[..|value| - |key|] in prefixes
  {
    var i :| 0 <= i < |prefixes| && prefixes[i] + key == value;
    assert prefixes[i] in prefixes;
    BehindPrefix(prefixes[i], key);
  }

  lemma BehindPrefix(prefix: string, key: string)
    requires prefix != "" && !IsSpace(prefix[0]) && key != "" && !IsSpace(key[|key| - 1])
    ensures Strip(prefix + key) == prefix + key && (prefix + key)[..|prefix + key| - |key|] == prefix
  {
    StripPlain(prefix + key);
  }

  lemma StripSpaced(s: string)
    requires s != "" && !IsSpace(s[0]) && !IsSpace(s[|s| - 1])
    ensures Strip(" " + s) == s
  {
    var spaced := " " + s;
    assert spaced[0] == ' ' && spaced[1] == s[0] && spaced[|spaced| - 1] == s[|s| - 1];
    assert Trim(spaced, 0, |spaced|) == Trim(spaced, 1, |spaced|) == spaced[1..|spaced|];
    assert spaced[1..] == s;
  }

  /** For every key some text stands for it and is not seen: the key after a space. */
  lemma SpacedIsUnseen(prefixes: seq<string>, key: string, schema: string, folder: string)
    requires Configured(prefixes) && PlainSchema(schema) && KnownFolder(folder) && ValidKey(key, schema, folder)
    ensures Normalize(prefixes, Some(" " + key)) == Some(key) && " " + key !in Candidates(prefixes, key)
  {
    ValidKeyShape(key, schema, folder);
    StripPlain(key);
    StripSpaced(key);
    ValidKeyIsNormal(prefixes, key, schema, folder);
    SeenIff(prefixes, key, schema, folder, " " + key);
  }

  /** And so does a prefix written in a letter case that is not configured. */
  lemma OtherCaseIsUnseen(prefixes: seq<string>, key: string, schema: string, folder: string, i: nat, host: string)
    requires Configured(prefixes) && PlainSchema(schema) && KnownFolder(folder) && ValidKey(key, schema, folder)
    requires i < |prefixes| && Lower(host) == Lower(prefixes[i]) && host !in prefixes
    requires host != "" && !IsSpace(host[0])
    requires forall j | 0 <= j < i :: !(|prefixes[j]| <= |host + key|
               && Lower((host + key)[..|prefixes[j]|]) == Lower(prefixes[j]))
    ensures Normalize(prefixes, Some(host + key)) == Some(key) && host + key !in Candidates(prefixes, key)
  {
    AnyCaseNormalizes(prefixes, key, schema, folder, i, host);
    SeenIff(prefixes, key, schema, folder, host + key);
    assert (host + key)[..|host + key| - |key|] == host;
  }
}
