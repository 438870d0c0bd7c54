/** AppConfig: the start-up guard over the three credentials compiled into
    BuildConfig, and the getters that hand them out. */
module Config {

  /** The three credential fields of BuildConfig. The build copies each from the
      environment file and writes "" for a key the file does not define, so any
      string, the empty one included, can arrive here. */
  datatype BuildConfig = BuildConfig(
    googleWebClientId: string,
    firebaseProjectId: string,
    firebaseApiKey: string)

  datatype Key = GoogleWebClientId | FirebaseProjectId | FirebaseApiKey

  /** The keys in the order validateConfiguration inspects them. */
  const CheckOrder: seq<Key> := [GoogleWebClientId, FirebaseProjectId, FirebaseApiKey]

  /** The name validateConfiguration reports for a missing key. */
  function Name(k: Key): string
  {
    match k
    case GoogleWebClientId => "GOOGLE_WEB_CLIENT_ID"
    case FirebaseProjectId => "FIREBASE_PROJECT_ID"
    case FirebaseApiKey => "FIREBASE_API_KEY"
  }

  /** Position of a key in CheckOrder. */
  function Rank(k: Key): nat
  {
    match k
    case GoogleWebClientId => 0
    case FirebaseProjectId => 1
    case FirebaseApiKey => 2
  }

  /** Position of a reported name in CheckOrder (3 for a name that is not one). */
  function NameRank(name: string): nat
  {
    if name == Name(GoogleWebClientId) then 0
    else if name == Name(FirebaseProjectId) then 1
    else if name == Name(FirebaseApiKey) then 2
    else 3
  }

  /** The getters googleWebClientId, firebaseProjectId and firebaseApiKey: each
      hands out its BuildConfig field as it is, without trimming or checking. */
  function Get(c: BuildConfig, k: Key): string
  {
    match k
    case GoogleWebClientId => c.googleWebClientId
    case FirebaseProjectId => c.firebaseProjectId
    case FirebaseApiKey => c.firebaseApiKey
  }

  predicate InCheckOrder(ks: seq<Key>)
  {
    forall i, j :: 0 <= i < j < |ks| ==> Rank(ks[i]) < Rank(ks[j])
  }

  predicate NamesInCheckOrder(names: seq<string>)
  {
    forall i, j :: 0 <= i < j < |names| ==> NameRank(names[i]) < NameRank(names[j])
  }

  /** The keys of `ks` whose value is empty, keeping their order. */
  function Missing(ks: seq<Key>, c: BuildConfig): seq<Key>
  {
    if ks == [] then []
    else (if Get(c, ks[0]) == "" then [ks[0]] else []) + Missing(ks[1..], c)
  }

  /** Missing collects exactly the keys of `ks` whose value is empty. */
  lemma {:induction false} MissingMembers(ks: seq<Key>, c: BuildConfig)
    ensures forall k :: k in Missing(ks, c) <==> k in ks && Get(c, k) == ""
  {
    if ks != [] {
      MissingMembers(ks[1..], c);
      forall k ensures k in ks <==> k == ks[0] || k in ks[1..] {
        assert ks == [ks[0]] + ks[1..];
      }
    }
  }

  /** Missing keeps the order of `ks`. */
  lemma {:induction false} MissingOrdered(ks: seq<Key>, c: BuildConfig)
    requires InCheckOrder(ks)
    ensures InCheckOrder(Missing(ks, c))
  {
    if ks != [] {
      MissingOrdered(ks[1..], c);
      if Get(c, ks[0]) == "" {
        MissingMembers(ks[1..], c);
        PrependInOrder(ks[0], ks[1..], Missing(ks[1..], c));
      }
    }
  }

  lemma PrependInOrder(h: Key, ks: seq<Key>, sub: seq<Key>)
    requires InCheckOrder([h] + ks) && InCheckOrder(sub)
    requires forall k :: k in sub ==> k in ks
    ensures InCheckOrder([h] + sub)
  {
    var hks := [h] + ks;
    forall k | k in sub ensures Rank(h) < Rank(k) {
      var j :| 0 <= j < |ks| && ks[j] == k;
      assert hks[0] == h && hks[j + 1] == k;
      assert Rank(hks[0]) < Rank(hks[j + 1]);
    }
    var r := [h] + sub;
    forall i, j | 0 <= i < j < |r| ensures Rank(r[i]) < Rank(r[j]) {
      if i == 0 {
        assert r[j] == sub[j - 1];
        assert r[j] in sub;
      } else {
        assert r[i] == sub[i - 1] && r[j] == sub[j - 1];
      }
    }
  }

  function Names(ks: seq<Key>): (names: seq<string>)
    ensures |names| == |ks|
    ensures forall i :: 0 <= i < |ks| ==> names[i] == Name(ks[i])
  {
    if ks == [] then [] else [Name(ks[0])] + Names(ks[1..])
  }

  /** Kotlin's `joinToString(sep)`. */
  function JoinToString(names: seq<string>, sep: string): string
  {
    if names == [] then ""
    else if |names| == 1 then names[0]
    else names[0] + sep + JoinToString(names[1..], sep)
  }

  const MessagePrefix: string := "Missing required configuration values: "
  const MessageSuffix: string := ". Please check your .env file and ensure all required values are set."

  /** The message of the IllegalStateException thrown for the missing names. */
  function FailureMessage(missing: seq<string>): string
  {
    MessagePrefix + JoinToString(missing, ", ") + MessageSuffix
  }

  /** What validateConfiguration does: return normally, or throw an
      IllegalStateException whose message lists the missing names. */
  datatype Validation = Passed | Failed(missing: seq<string>, message: string)

  /** The outcome of validateConfiguration on configuration `c`. */
  function Validate(c: BuildConfig): (v: Validation)
    ensures v.Passed? <==> forall k: Key :: Get(c, k) != ""
    ensures v.Failed? ==> |v.missing| >= 1
    ensures v.Failed? ==> forall k: Key :: Name(k) in v.missing <==> Get(c, k) == ""
    ensures v.Failed? ==> forall n :: n in v.missing ==> exists k: Key :: Name(k) == n
    ensures v.Failed? ==> NamesInCheckOrder(v.missing)
    ensures v.Failed? ==> v.message == FailureMessage(v.missing)
  {
    var missing := Missing(CheckOrder, c);
    MissingMembers(CheckOrder, c);
    CheckOrderOrdered();
    MissingOrdered(CheckOrder, c);
    NamesKeepOrder(missing);
    AllKeysChecked();
    if missing == [] then
      Passed
    else
      NamesMembership(missing);
      NamesAreKeyNames(missing);
      Failed(Names(missing), FailureMessage(Names(missing)))
  }

  lemma CheckOrderOrdered()
    ensures InCheckOrder(CheckOrder)
  {
  }

  /** CheckOrder lists every key. */
  lemma AllKeysChecked()
    ensures forall k: Key :: k in CheckOrder
  {
    forall k: Key ensures k in CheckOrder {
      assert CheckOrder[Rank(k)] == k;
    }
  }

  /** The three names are told apart by their lengths (20, 19 and 16). */
  lemma NameRankOfName(k: Key)
    ensures NameRank(Name(k)) == Rank(k)
  {
    assert |Name(GoogleWebClientId)| == 20;
    assert |Name(FirebaseProjectId)| == 19;
    assert |Name(FirebaseApiKey)| == 16;
  }

  lemma NamesKeepOrder(ks: seq<Key>)
    requires InCheckOrder(ks)
    ensures NamesInCheckOrder(Names(ks))
  {
    forall k: Key ensures NameRank(Name(k)) == Rank(k) {
      NameRankOfName(k);
    }
  }

  lemma NameInjective(k1: Key, k2: Key)
    requires Name(k1) == Name(k2)
    ensures k1 == k2
  {
    NameRankOfName(k1);
    NameRankOfName(k2);
  }

  lemma NamesMembership(ks: seq<Key>)
    ensures forall k: Key :: Name(k) in Names(ks) <==> k in ks
  {
    var names := Names(ks);
    forall k: Key ensures Name(k) in names <==> k in ks {
      if k in ks {
        var i :| 0 <= i < |ks| && ks[i] == k;
        assert names[i] == Name(k);
      }
      if Name(k) in names {
        var i :| 0 <= i < |names| && names[i] == Name(k);
        NameInjective(ks[i], k);
      }
    }
  }

  /** Every entry of Names(ks) is the name of some key. */
  lemma NamesAreKeyNames(ks: seq<Key>)
    ensures forall n :: n in Names(ks) ==> exists k: Key :: Name(k) == n
  {
    forall n | n in Names(ks) ensures exists k: Key :: Name(k) == n {
      var i :| 0 <= i < |ks| && Names(ks)[i] == n;
      assert Name(ks[i]) == n;
    }
  }

  /** validateConfiguration as the code writes it: three checks in a fixed order,
      each appending to a list, then a throw when the list is not empty. */
  method ValidateConfiguration(c: BuildConfig) returns (v: Validation)
    ensures v == Validate(c)
  {
    var missingConfigs: seq<Key> := [];
    if c.googleWebClientId == "" {
      missingConfigs := missingConfigs + [GoogleWebClientId];
    }
    if c.firebaseProjectId == "" {
      missingConfigs := missingConfigs + [FirebaseProjectId];
    }
    if c.firebaseApiKey == "" {
      missingConfigs := missingConfigs + [FirebaseApiKey];
    }
    MissingFromCheckOrder(c);
    assert missingConfigs == Missing(CheckOrder, c);
    ValidateUnfolds(c);
    if |missingConfigs| > 0 {
      v := Failed(Names(missingConfigs), FailureMessage(Names(missingConfigs)));
    } else {
      v := Passed;
    }
  }

  lemma ValidateUnfolds(c: BuildConfig)
    ensures Missing(CheckOrder, c) == [] ==> Validate(c) == Passed
    ensures Missing(CheckOrder, c) != [] ==>
      Validate(c) == Failed(Names(Missing(CheckOrder, c)), FailureMessage(Names(Missing(CheckOrder, c))))
  {
  }

  /** Unfolds Missing over the three keys of CheckOrder. */
  lemma MissingFromCheckOrder(c: BuildConfig)
    ensures Missing(CheckOrder, c) ==
      (if c.googleWebClientId == "" then [GoogleWebClientId] else []) +
      (if c.firebaseProjectId == "" then [FirebaseProjectId] else []) +
      (if c.firebaseApiKey == "" then [FirebaseApiKey] else [])
  {
    MissingOfThree(GoogleWebClientId, FirebaseProjectId, FirebaseApiKey, c);
  }

  lemma MissingOfThree(a: Key, b: Key, d: Key, c: BuildConfig)
    ensures Missing([a, b, d], c) ==
      (if Get(c, a) == "" then [a] else []) +
      (if Get(c, b) == "" then [b] else []) +
      (if Get(c, d) == "" then [d] else [])
  {
    MissingCons(d, [], c);
    assert [d] + [] == [d];
    MissingCons(b, [d], c);
    assert [b] + [d] == [b, d];
    MissingCons(a, [b, d], c);
    assert [a] + [b, d] == [a, b, d];
  }

  lemma MissingCons(k: Key, ks: seq<Key>, c: BuildConfig)
    ensures Missing([k] + ks, c) == (if Get(c, k) == "" then [k] else []) + Missing(ks, c)
  {
    assert ([k] + ks)[1..] == ks;
  }

  /** Only emptiness is checked: values made of blanks pass. */
  lemma BlankValuesPass()
    ensures Validate(BuildConfig(" ", "\t", "  ")).Passed?
  {
    assert forall k: Key :: Get(BuildConfig(" ", "\t", "  "), k) != "";
  }

  /** A configuration without a web client id (and the other two set) fails
      naming exactly that key, with the message spelled out in full. */
  lemma OnlyClientIdMissing(projectId: string, apiKey: string)
    requires projectId != "" && apiKey != ""
    ensures Validate(BuildConfig("", projectId, apiKey)) ==
      Failed(["GOOGLE_WEB_CLIENT_ID"], MessagePrefix + "GOOGLE_WEB_CLIENT_ID" + MessageSuffix)
  {
    var c := BuildConfig("", projectId, apiKey);
    MissingFromCheckOrder(c);
    assert Missing(CheckOrder, c) == [GoogleWebClientId];
    assert Names([GoogleWebClientId]) == ["GOOGLE_WEB_CLIENT_ID"];
  }

  /** When everything is missing, all three names are listed, in check order. */
  lemma AllMissing(c: BuildConfig)
    requires c.googleWebClientId == "" && c.firebaseProjectId == "" && c.firebaseApiKey == ""
    ensures Validate(c).Failed?
    ensures Validate(c).missing == ["GOOGLE_WEB_CLIENT_ID", "FIREBASE_PROJECT_ID", "FIREBASE_API_KEY"]
  {
    MissingFromCheckOrder(c);
    ValidateMissing(c);
  }

  lemma ValidateMissing(c: BuildConfig)
    ensures Validate(c).Failed? ==> Validate(c).missing == Names(Missing(CheckOrder, c))
  {
  }

  /** The message lists the missing names separated by ", ", between the fixed
      opening and closing sentences. */
  lemma MessageListsNames(a: string, b: string, d: string)
    ensures FailureMessage([a]) == MessagePrefix + a + MessageSuffix
    ensures FailureMessage([a, b]) == MessagePrefix + a + ", " + b + MessageSuffix
    ensures FailureMessage([a, b, d]) == MessagePrefix + a + ", " + b + ", " + d + MessageSuffix
  {
    assert JoinToString([a], ", ") == a;
    assert [a, b][1..] == [b];
    assert JoinToString([a, b], ", ") == a + ", " + b;
    assert MessagePrefix + (a + ", " + b) + MessageSuffix == MessagePrefix + a + ", " + b + MessageSuffix;
    JoinThree(a, b, d, ", ");
    assert MessagePrefix + (a + ", " + b + ", " + d) + MessageSuffix
      == MessagePrefix + a + ", " + b + ", " + d + MessageSuffix;
  }

  lemma JoinThree(a: string, b: string, d: string, sep: string)
    ensures JoinToString([a, b, d], sep) == a + sep + b + sep + d
  {
    assert [a, b, d][1..] == [b, d];
    assert [b, d][1..] == [d];
    assert JoinToString([b, d], sep) == b + sep + d;
    assert a + sep + (b + sep + d) == a + sep + b + sep + d;
  }

  /** joinToString on a list that grows by one name: the separator, then that
      name, is added at the end; a single name is joined to itself. */
  lemma {:induction false} JoinAppend(xs: seq<string>, y: string, sep: string)
    ensures JoinToString([y], sep) == y
    ensures xs != [] ==> JoinToString(xs + [y], sep) == JoinToString(xs, sep) + sep + y
    decreases xs
  {
    if |xs| == 1 {
      assert xs + [y] == [xs[0], y];
      assert [xs[0], y][1..] == [y];
    } else if xs != [] {
      assert (xs + [y])[0] == xs[0];
      assert (xs + [y])[1..] == xs[1..] + [y];
      JoinAppend(xs[1..], y, sep);
      assert xs[0] + sep + (JoinToString(xs[1..], sep) + sep + y)
        == (xs[0] + sep + JoinToString(xs[1..], sep)) + sep + y;
    }
  }

  /** The getters hand out the three BuildConfig fields unchanged, so together
      they determine the configuration. */
  lemma GettersReturnFields(c: BuildConfig, d: BuildConfig)
    ensures Get(c, GoogleWebClientId) == c.googleWebClientId
    ensures Get(c, FirebaseProjectId) == c.firebaseProjectId
    ensures Get(c, FirebaseApiKey) == c.firebaseApiKey
    ensures (forall k: Key :: Get(c, k) == Get(d, k)) ==> c == d
  {
    if forall k: Key :: Get(c, k) == Get(d, k) {
      assert Get(c, GoogleWebClientId) == Get(d, GoogleWebClientId);
      assert Get(c, FirebaseProjectId) == Get(d, FirebaseProjectId);
      assert Get(c, FirebaseApiKey) == Get(d, FirebaseApiKey);
    }
  }

  /** A getter's value is empty exactly when validation fails and reports that
      getter's name. */
  lemma GetterEmptyIffReported(c: BuildConfig, k: Key)
    ensures Get(c, k) == "" <==> Validate(c).Failed? && Name(k) in Validate(c).missing
  {
  }

  /** Once validation has passed, every getter yields a non-empty value; in
      particular the client id handed to the sign-in options is not "". */
  lemma PassedGettersNonEmpty(c: BuildConfig, k: Key)
    requires Validate(c).Passed?
    ensures Get(c, k) != ""
  {
  }
}
