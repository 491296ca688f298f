/** service/GooglePlacesRestaurantSyncService.java: restaurants fetched
    from the Places "nearby search" endpoint are normalised to a key, and
    only places whose key is not already in the `restaurants` collection are
    written, at most 200 per run.

    The `restaurants` collection is a map from document id to a field map;
    each HTTP request is answered by a `respond` function of the page number
    and the page token (a failed request, non-2xx or with a bad status, is
    `RequestFailed`); parsed JSON is a datatype; coordinates are reals. */
module RestaurantSync {
  import opened Common

  const MAX_RESULTS: nat := 200
  const MAX_PAGES: nat := 10

  // ---------------------------------------------------------------------
  // Keys

  /** `buildRestaurantKey`: "" when the name or the address is null or
      empty, otherwise the lower-cased "name|address" of the trimmed parts. */
  function BuildRestaurantKey(name: Option<string>, address: Option<string>): (k: string)
    ensures k == "" <==> name.None? || name.value == "" || address.None? || address.value == ""
  {
    if name.None? || name.value == "" || address.None? || address.value == "" then ""
    else Lower(JavaTrim(name.value) + "|" + JavaTrim(address.value))
  }

  /** Blanks around either part do not change a key. */
  lemma KeyIgnoresSurroundingBlanks(name: string, address: string)
    requires JavaTrim(name) != "" && JavaTrim(address) != ""
    ensures BuildRestaurantKey(Some(JavaTrim(name)), Some(JavaTrim(address)))
         == BuildRestaurantKey(Some(name), Some(address))
  {
    TrimIdempotent(name, JavaSpace);
    TrimIdempotent(address, JavaSpace);
  }

  lemma {:induction false} TrimStartLower(s: string)
    ensures TrimStart(Lower(s), JavaSpace) == Lower(TrimStart(s, JavaSpace))
    decreases |s|
  {
    if |s| > 0 {
      assert Lower(s)[1..] == Lower(s[1..]);
      if JavaSpace(s[0]) {
        TrimStartLower(s[1..]);
      }
    }
  }

  lemma {:induction false} TrimEndLower(s: string)
    ensures TrimEnd(Lower(s), JavaSpace) == Lower(TrimEnd(s, JavaSpace))
    decreases |s|
  {
    if |s| > 0 {
      assert Lower(s)[..|s| - 1] == Lower(s[..|s| - 1]);
      if JavaSpace(s[|s| - 1]) {
        TrimEndLower(s[..|s| - 1]);
      }
    }
  }

  /** Trimming commutes with lower-casing: no blank is a letter. */
  lemma TrimLower(s: string)
    ensures JavaTrim(Lower(s)) == Lower(JavaTrim(s))
  {
    TrimStartLower(s);
    TrimEndLower(TrimStart(s, JavaSpace));
  }

  /** A key made of lower-cased parts is the key of the parts. */
  lemma LowerJoinedKey(n: string, a: string)
    ensures Lower(Lower(n) + "|" + Lower(a)) == Lower(n + "|" + a)
  {
    LowerAppend(n, "|");
    LowerAppend(n + "|", a);
    assert Lower("|") == "|";
    LowerLower(n + "|" + a);
  }

  /** Lower-casing before the key is built changes nothing: the key is
      already case-folded. */
  lemma KeyIgnoresCase(name: string, address: string)
    ensures BuildRestaurantKey(Some(Lower(name)), Some(Lower(address)))
         == BuildRestaurantKey(Some(name), Some(address))
  {
    if name != "" && address != "" {
      TrimLower(name);
      TrimLower(address);
      LowerJoinedKey(JavaTrim(name), JavaTrim(address));
    }
  }

  lemma LowerAppend(a: string, b: string)
    ensures Lower(a + b) == Lower(a) + Lower(b)
  {
    assert forall i :: 0 <= i < |a + b| ==> Lower(a + b)[i] == (Lower(a) + Lower(b))[i];
  }

  lemma LowerLower(s: string)
    ensures Lower(Lower(s)) == Lower(s)
  {
    assert forall i :: 0 <= i < |s| ==> Lower(Lower(s))[i] == Lower(s)[i];
  }

  // ---------------------------------------------------------------------
  // Capitalisation

  /** Java `text.split(" ")` before it drops trailing empty pieces: the
      pieces between single spaces, empty ones included. `capitalize` skips
      every empty piece, so the trailing ones make no difference. */
  function SplitOnSpace(s: string): (r: seq<string>)
    ensures |r| >= 1
    ensures forall i :: 0 <= i < |r| ==> ' ' !in r[i]
  {
    if s == [] then [""]
    else
      var rest := SplitOnSpace(s[1..]);
      if s[0] == ' ' then [""] + rest
      else [[s[0]] + rest[0]] + rest[1..]
  }

  /** The non-empty pieces, in order. */
  function Words(pieces: seq<string>): (r: seq<string>)
    ensures |r| <= |pieces|
    ensures forall i :: 0 <= i < |r| ==> r[i] != ""
  {
    if pieces == [] then []
    else
      var init := Words(pieces[..|pieces| - 1]);
      if pieces[|pieces| - 1] == "" then init else init + [pieces[|pieces| - 1]]
  }

  lemma {:induction false} WordsWithoutSpace(pieces: seq<string>)
    requires forall i :: 0 <= i < |pieces| ==> ' ' !in pieces[i]
    ensures forall i :: 0 <= i < |Words(pieces)| ==> ' ' !in Words(pieces)[i]
    decreases |pieces|
  {
    if pieces != [] {
      WordsWithoutSpace(pieces[..|pieces| - 1]);
    }
  }

  /** The first character upper-cased (US locale, ASCII letters), the rest kept. */
  function CapitalizeWord(w: string): (r: string)
    requires w != ""
    ensures |r| == |w| && r[1..] == w[1..] && r[0] == UpperChar(w[0])
  {
    [UpperChar(w[0])] + w[1..]
  }

  function CapitalizeAll(ws: seq<string>): (r: seq<string>)
    requires forall i :: 0 <= i < |ws| ==> ws[i] != ""
    ensures |r| == |ws|
    ensures forall i :: 0 <= i < |ws| ==> r[i] == CapitalizeWord(ws[i])
  {
    if ws == [] then [] else CapitalizeAll(ws[..|ws| - 1]) + [CapitalizeWord(ws[|ws| - 1])]
  }

  /** The words joined by single spaces. */
  function JoinSpaced(ws: seq<string>): (r: string)
    ensures |ws| == 1 ==> r == ws[0]
    ensures |ws| >= 2 ==> r != ""
  {
    if ws == [] then ""
    else if |ws| == 1 then ws[0]
    else JoinSpaced(ws[..|ws| - 1]) + " " + ws[|ws| - 1]
  }

  /** What `capitalize` returns. */
  function CapitalizeText(text: string): string
  {
    var ws := Words(SplitOnSpace(text));
    if ws == [] then "Restaurant" else JoinSpaced(CapitalizeAll(ws))
  }

  /** The capitalized words joined are empty exactly when there is no word. */
  lemma JoinedEmpty(ws: seq<string>)
    requires forall i :: 0 <= i < |ws| ==> ws[i] != ""
    ensures JoinSpaced(CapitalizeAll(ws)) == "" <==> ws == []
  {
    if |ws| == 1 {
      assert CapitalizeAll(ws)[0] == CapitalizeWord(ws[0]);
    }
  }

  /** One more piece seen by `capitalize`'s loop: an empty piece is
      skipped, any other is one more word. */
  lemma WordsStep(pieces: seq<string>, i: nat)
    requires i < |pieces|
    ensures Words(pieces[..i + 1]) ==
      if pieces[i] == "" then Words(pieces[..i]) else Words(pieces[..i]) + [pieces[i]]
  {
    assert pieces[..i + 1][..i] == pieces[..i];
  }

  /** One more word joined: it follows a space unless it is the first. */
  lemma CapitalizeStep(ws: seq<string>, w: string)
    requires forall i :: 0 <= i < |ws| ==> ws[i] != ""
    requires w != ""
    ensures JoinSpaced(CapitalizeAll(ws + [w])) ==
      if ws == [] then CapitalizeWord(w) else JoinSpaced(CapitalizeAll(ws)) + " " + CapitalizeWord(w)
  {
    CapitalizeAllSnoc(ws, w);
    JoinSnoc(CapitalizeAll(ws), CapitalizeWord(w));
  }

  lemma CapitalizeAllSnoc(ws: seq<string>, w: string)
    requires forall i :: 0 <= i < |ws| ==> ws[i] != ""
    requires w != ""
    ensures CapitalizeAll(ws + [w]) == CapitalizeAll(ws) + [CapitalizeWord(w)]
  {
    assert (ws + [w])[..|ws|] == ws;
  }

  lemma JoinSnoc(ws: seq<string>, w: string)
    ensures JoinSpaced(ws + [w]) == if ws == [] then w else JoinSpaced(ws) + " " + w
  {
    assert (ws + [w])[..|ws|] == ws;
  }

  /** `capitalize`: "Restaurant" when the text holds no word, otherwise its
      words capitalized and joined by single spaces. */
  method Capitalize(text: string) returns (r: string)
    ensures r == CapitalizeText(text)
  {
    var pieces := SplitOnSpace(text);
    var result := JoinCapitalized(pieces);
    JoinedEmpty(Words(pieces));
    r := if |result| == 0 then "Restaurant" else result;
  }

  /** What the loop of `capitalize` has built after one more piece. */
  lemma JoinStep(pieces: seq<string>, i: nat, result: string)
    requires i < |pieces|
    requires result == JoinSpaced(CapitalizeAll(Words(pieces[..i])))
    ensures JoinSpaced(CapitalizeAll(Words(pieces[..i + 1]))) ==
      if pieces[i] == "" then result
      else if |result| > 0 then result + " " + CapitalizeWord(pieces[i])
      else CapitalizeWord(pieces[i])
  {
    WordsStep(pieces, i);
    if pieces[i] != "" {
      CapitalizeStep(Words(pieces[..i]), pieces[i]);
      JoinedEmpty(Words(pieces[..i]));
    }
  }

  /** The loop of `capitalize`: one pass over the pieces, a space before
      every word but the first. */
  method JoinCapitalized(pieces: seq<string>) returns (result: string)
    ensures result == JoinSpaced(CapitalizeAll(Words(pieces)))
  {
    result := "";
    var i := 0;
    assert pieces[..0] == [];
    while i < |pieces|
      invariant 0 <= i <= |pieces|
      invariant result == JoinSpaced(CapitalizeAll(Words(pieces[..i])))
    {
      JoinStep(pieces, i, result);
      var word := pieces[i];
      if word != "" {
        if |result| > 0 {
          result := result + " " + CapitalizeWord(word);
        } else {
          result := CapitalizeWord(word);
        }
      }
      i := i + 1;
    }
    assert pieces[..i] == pieces;
  }

  lemma {:induction false} SplitSpaceAppend(a: string, b: string)
    ensures SplitOnSpace(a + " " + b) == SplitOnSpace(a) + SplitOnSpace(b)
    decreases |a|
  {
    if a == [] {
      assert a + " " + b == [' '] + b;
      assert ([' '] + b)[1..] == b;
    } else {
      assert (a + " " + b)[0] == a[0];
      assert (a + " " + b)[1..] == a[1..] + " " + b;
      SplitSpaceAppend(a[1..], b);
    }
  }

  lemma {:induction false} SplitWithoutSpace(w: string)
    requires ' ' !in w
    ensures SplitOnSpace(w) == [w]
    decreases |w|
  {
    if w != [] {
      assert ' ' !in w[1..] by {
        forall i | 0 <= i < |w[1..]| ensures w[1..][i] != ' ' { assert w[1..][i] == w[i + 1]; }
      }
      SplitWithoutSpace(w[1..]);
      assert [w[0]] + w[1..] == w;
    }
  }

  lemma {:induction false} SplitJoin(ws: seq<string>)
    requires |ws| >= 1
    requires forall i :: 0 <= i < |ws| ==> ' ' !in ws[i]
    ensures SplitOnSpace(JoinSpaced(ws)) == ws
    decreases |ws|
  {
    if |ws| == 1 {
      SplitWithoutSpace(ws[0]);
    } else {
      var init := ws[..|ws| - 1];
      SplitJoin(init);
      SplitSpaceAppend(JoinSpaced(init), ws[|ws| - 1]);
      SplitWithoutSpace(ws[|ws| - 1]);
      assert ws == init + [ws[|ws| - 1]];
    }
  }

  lemma {:induction false} WordsOfWords(ws: seq<string>)
    requires forall i :: 0 <= i < |ws| ==> ws[i] != ""
    ensures Words(ws) == ws
    decreases |ws|
  {
    if ws != [] {
      WordsOfWords(ws[..|ws| - 1]);
      assert ws == ws[..|ws| - 1] + [ws[|ws| - 1]];
    }
  }

  /** The words of a capitalised text are the original words, each
      capitalised: `capitalize` neither merges, splits, drops nor reorders
      words. */
  lemma CapitalizeKeepsWords(text: string)
    requires Words(SplitOnSpace(text)) != []
    ensures Words(SplitOnSpace(CapitalizeText(text))) == CapitalizeAll(Words(SplitOnSpace(text)))
  {
    var cs := CapitalizeAll(Words(SplitOnSpace(text)));
    WordsWithoutSpace(SplitOnSpace(text));
    forall i | 0 <= i < |cs| ensures ' ' !in cs[i] && cs[i] != ""
    {
      var w := Words(SplitOnSpace(text))[i];
      forall j | 0 <= j < |cs[i]| ensures cs[i][j] != ' '
      {
        if j > 0 { assert cs[i][j] == w[j]; }
      }
    }
    SplitJoin(cs);
    WordsOfWords(cs);
  }

  /** The fallback name is its own capitalisation. */
  lemma FallbackCapitalized()
    ensures CapitalizeText("Restaurant") == "Restaurant"
  {
    SplitWithoutSpace("Restaurant");
    WordsOfWords(["Restaurant"]);
  }

  /** Capitalised words are their own capitalisation. */
  lemma CapitalizeAllTwice(ws: seq<string>)
    requires forall i :: 0 <= i < |ws| ==> ws[i] != ""
    ensures CapitalizeAll(CapitalizeAll(ws)) == CapitalizeAll(ws)
  {
    var cs := CapitalizeAll(ws);
    assert forall i :: 0 <= i < |cs| ==> |cs[i]| == |ws[i]|;
    var cc := CapitalizeAll(cs);
    forall i | 0 <= i < |cs| ensures cc[i] == cs[i]
    {
      CapitalizeWordTwice(ws[i]);
    }
    assert cc == cs;
  }

  lemma CapitalizeWordTwice(w: string)
    requires w != ""
    ensures CapitalizeWord(CapitalizeWord(w)) == CapitalizeWord(w)
  {
    var c := CapitalizeWord(w);
    assert UpperChar(c[0]) == c[0];
    assert c == [c[0]] + c[1..];
  }

  /** Capitalising a second time changes nothing. */
  lemma CapitalizeIdempotent(text: string)
    ensures CapitalizeText(CapitalizeText(text)) == CapitalizeText(text)
  {
    var ws := Words(SplitOnSpace(text));
    if ws == [] {
      FallbackCapitalized();
    } else {
      var cs := CapitalizeAll(ws);
      assert Words(SplitOnSpace(CapitalizeText(text))) == cs by {
        CapitalizeKeepsWords(text);
      }
      CapitalizeAllTwice(ws);
    }
  }

  // ---------------------------------------------------------------------
  // Categories

  /** A place type that says nothing about the cuisine. */
  predicate GenericType(t: string)
  {
    t == "" || t == "point_of_interest" || t == "establishment" || t == "food" || t == "restaurant"
  }

  /** `type.replace('_', ' ')`. */
  function ReplaceUnderscores(t: string): (r: string)
    ensures |r| == |t| && '_' !in r
    ensures forall i :: 0 <= i < |t| && t[i] != '_' ==> r[i] == t[i]
  {
    seq(|t|, i requires 0 <= i < |t| => if t[i] == '_' then ' ' else t[i])
  }

  /** The index of the first specific type, if any. */
  function FirstSpecific(types: seq<string>): (r: Option<nat>)
    ensures r.Some? ==>
      (r.value < |types| && !GenericType(types[r.value])
       && forall j :: 0 <= j < r.value ==> GenericType(types[j]))
    ensures r.None? ==> forall j :: 0 <= j < |types| ==> GenericType(types[j])
  {
    if types == [] then None
    else if !GenericType(types[0]) then Some(0)
    else
      var r := FirstSpecific(types[1..]);
      if r.None? then None else Some(r.value + 1)
  }

  /** What `getCategory` returns: the first specific type, with underscores
      turned into spaces and capitalised; "Restaurant" for a null list or one
      with generic types only. Each entry is the string `optString` gives. */
  function CategoryOf(types: Option<seq<string>>): (c: string)
  {
    if types.None? then "Restaurant"
    else
      var i := FirstSpecific(types.value);
      if i.None? then "Restaurant" else CapitalizeText(ReplaceUnderscores(types.value[i.value]))
  }

  lemma {:induction false} FirstSpecificShift(generic: seq<string>, types: seq<string>)
    requires forall i :: 0 <= i < |generic| ==> GenericType(generic[i])
    ensures var f := FirstSpecific(types);
      FirstSpecific(generic + types) == if f.None? then None else Some(|generic| + f.value)
    decreases |generic|
  {
    if generic != [] {
      assert (generic + types)[0] == generic[0];
      assert (generic + types)[1..] == generic[1..] + types;
      FirstSpecificShift(generic[1..], types);
    } else {
      assert generic + types == types;
    }
  }

  /** Generic types placed in front of a list do not change its category. */
  lemma CategorySkipsGeneric(generic: seq<string>, types: seq<string>)
    requires forall i :: 0 <= i < |generic| ==> GenericType(generic[i])
    ensures CategoryOf(Some(generic + types)) == CategoryOf(Some(types))
  {
    FirstSpecificShift(generic, types);
    var f := FirstSpecific(types);
    if f.Some? {
      assert (generic + types)[|generic| + f.value] == types[f.value];
    }
  }

  /** `getCategory`. */
  method GetCategory(types: Option<seq<string>>) returns (c: string)
    ensures c == CategoryOf(types)
  {
    if types.None? {
      return "Restaurant";
    }
    var ts := types.value;
    var i := 0;
    while i < |ts|
      invariant 0 <= i <= |ts|
      invariant forall j :: 0 <= j < i ==> GenericType(ts[j])
    {
      var t := ts[i];
      if !GenericType(t) {
        assert FirstSpecific(ts) == Some(i);
        c := Capitalize(ReplaceUnderscores(t));
        return;
      }
      i := i + 1;
    }
    c := "Restaurant";
  }

  // ---------------------------------------------------------------------
  // Parsing one result

  /** `location`: a missing or non-numeric coordinate (`optDouble`'s NaN) is None. */
  datatype Location = Location(lat: Option<real>, lng: Option<real>)

  datatype Geometry = Geometry(location: Option<Location>)

  /** One element of `results`, with each string as `optString` reads it. */
  datatype PlaceJson = PlaceJson(
    placeId: Option<string>,
    name: Option<string>,
    formattedAddress: Option<string>,
    vicinity: Option<string>,
    geometry: Option<Geometry>,
    types: Option<seq<string>>)

  datatype PlacePayload = PlacePayload(
    placeId: string, name: string, address: string,
    latitude: real, longitude: real, category: string)

  /** `optString(key, fallback)`. */
  function OptString(v: Option<string>, fallback: string): string
  {
    if v.Some? then v.value else fallback
  }

  /** The address `parsePlace` keeps: formatted_address when present, else
      vicinity, else "". */
  function AddressOf(json: PlaceJson): string
  {
    OptString(json.formattedAddress, OptString(json.vicinity, ""))
  }

  /** A place with an id, a name and both coordinates. */
  predicate Complete(json: PlaceJson)
  {
    OptString(json.placeId, "") != "" && OptString(json.name, "") != ""
    && json.geometry.Some? && json.geometry.value.location.Some?
    && json.geometry.value.location.value.lat.Some?
    && json.geometry.value.location.value.lng.Some?
  }

  /** `parsePlace`: null for an incomplete place. */
  function ParsePlace(json: PlaceJson): (r: Option<PlacePayload>)
    ensures r.Some? <==> Complete(json)
    ensures r.Some? ==>
      r.value.placeId == json.placeId.value && r.value.name == json.name.value
      && r.value.placeId != "" && r.value.name != ""
      && r.value.address == AddressOf(json)
      && r.value.latitude == json.geometry.value.location.value.lat.value
      && r.value.longitude == json.geometry.value.location.value.lng.value
      && r.value.category == CategoryOf(json.types)
  {
    if !Complete(json) then None
    else
      var loc := json.geometry.value.location.value;
      Some(PlacePayload(json.placeId.value, json.name.value, AddressOf(json),
                        loc.lat.value, loc.lng.value, CategoryOf(json.types)))
  }

  /** A parsed place escapes de-duplication exactly when its address is empty. */
  lemma ParsedKeyEmptyIffNoAddress(json: PlaceJson)
    requires ParsePlace(json).Some?
    ensures var p := ParsePlace(json).value;
      BuildRestaurantKey(Some(p.name), Some(p.address)) == "" <==> AddressOf(json) == ""
  {
  }

  // ---------------------------------------------------------------------
  // Fetching pages

  /** A page: its `results` (possibly absent) and `next_page_token` ("" when absent). */
  datatype Response = Page(results: Option<seq<PlaceJson>>, nextPageToken: string) | RequestFailed

  /** The places of a result array that parse, in order. */
  function ParseAll(results: seq<PlaceJson>): (r: seq<PlacePayload>)
    ensures |r| <= |results|
  {
    if results == [] then []
    else
      var p := ParsePlace(results[|results| - 1]);
      ParseAll(results[..|results| - 1]) + (if p.Some? then [p.value] else [])
  }

  function PlacesOf(results: Option<seq<PlaceJson>>): seq<PlacePayload>
  {
    if results.None? then [] else ParseAll(results.value)
  }

  /** How a page's `results` become places: `PlacesOf` in the service. */
  type Parser = Option<seq<PlaceJson>> -> seq<PlacePayload>

  /** The rest of `fetchPlaces` from page `page` with token `token` (""
      for none) and the places collected so far: all places, the tokens of
      the requests made, and whether no request failed. */
  function FetchFrom(respond: (nat, string) -> Response, parse: Parser, page: nat, token: string,
                     acc: seq<PlacePayload>): (r: (seq<PlacePayload>, seq<string>, bool))
    requires page <= MAX_PAGES
    ensures |r.1| <= MAX_PAGES - page
    decreases MAX_PAGES - page
  {
    if page == MAX_PAGES || |acc| >= MAX_RESULTS then (acc, [], true)
    else
      match respond(page, token)
      case RequestFailed => (acc, [token], false)
      case Page(results, next) =>
        var places := acc + parse(results);
        if next == "" then (places, [token], true)
        else
          var rest := FetchFrom(respond, parse, page + 1, next, places);
          (rest.0, [token] + rest.1, rest.2)
  }

  /** What `fetchPlaces` returns. */
  function Fetch(respond: (nat, string) -> Response): (r: (seq<PlacePayload>, seq<string>, bool))
    ensures |r.1| <= MAX_PAGES
  {
    FetchFrom(respond, PlacesOf, 0, "", [])
  }

  /** Every request after the first carries a token. */
  predicate LaterTokensSet(tokens: seq<string>)
  {
    forall i :: 1 <= i < |tokens| ==> tokens[i] != ""
  }

  /** A run from page `page` that failed ended on a failed request; one that
      did not fail ended on the page limit, at 200 places or more, or on a
      page without a next-page token. */
  predicate StoppedProperly(respond: (nat, string) -> Response, page: nat,
                            r: (seq<PlacePayload>, seq<string>, bool))
  {
    var n := |r.1|;
    (!r.2 ==> n >= 1 && respond(page + n - 1, r.1[n - 1]).RequestFailed?)
    && (r.2 ==>
          page + n == MAX_PAGES || |r.0| >= MAX_RESULTS
          || (n >= 1 && respond(page + n - 1, r.1[n - 1]).Page?
              && respond(page + n - 1, r.1[n - 1]).nextPageToken == ""))
  }

  /** A request answered with a page that has a next-page token: the run
      goes on from the next page. */
  lemma FetchFromNext(respond: (nat, string) -> Response, parse: Parser, page: nat, token: string,
                      acc: seq<PlacePayload>)
    requires page < MAX_PAGES && |acc| < MAX_RESULTS
    requires respond(page, token).Page? && respond(page, token).nextPageToken != ""
    ensures var resp := respond(page, token);
      var rest := FetchFrom(respond, parse, page + 1, resp.nextPageToken, acc + parse(resp.results));
      FetchFrom(respond, parse, page, token, acc) == (rest.0, [token] + rest.1, rest.2)
  {
  }

  /** A run that is not over makes its first request with the given token. */
  lemma FetchFromFirst(respond: (nat, string) -> Response, parse: Parser, page: nat, token: string,
                       acc: seq<PlacePayload>)
    requires page < MAX_PAGES && |acc| < MAX_RESULTS
    ensures var r := FetchFrom(respond, parse, page, token, acc);
      |r.1| >= 1 && r.1[0] == token
  {
    var resp := respond(page, token);
    if resp.Page? && resp.nextPageToken != "" {
      FetchFromNext(respond, parse, page, token, acc);
    }
  }

  lemma {:induction false} FetchFromLaterTokens(respond: (nat, string) -> Response, parse: Parser, page: nat, token: string,
                                                acc: seq<PlacePayload>)
    requires page <= MAX_PAGES
    ensures LaterTokensSet(FetchFrom(respond, parse, page, token, acc).1)
    decreases MAX_PAGES - page
  {
    if page < MAX_PAGES && |acc| < MAX_RESULTS && respond(page, token).Page?
       && respond(page, token).nextPageToken != "" {
      var resp := respond(page, token);
      var places := acc + parse(resp.results);
      var rest := FetchFrom(respond, parse, page + 1, resp.nextPageToken, places);
      FetchFromNext(respond, parse, page, token, acc);
      FetchFromLaterTokens(respond, parse, page + 1, resp.nextPageToken, places);
      if page + 1 < MAX_PAGES && |places| < MAX_RESULTS {
        FetchFromFirst(respond, parse, page + 1, resp.nextPageToken, places);
      } else {
        assert rest.1 == [];
      }
      TokensShift(token, resp.nextPageToken, rest.1);
    }
  }

  /** Putting any token in front of tokens that start with a set one and
      are set from the second on keeps every token after the first set. */
  lemma TokensShift(token: string, next: string, ts: seq<string>)
    requires next != "" && LaterTokensSet(ts)
    requires |ts| >= 1 ==> ts[0] == next
    ensures LaterTokensSet([token] + ts)
  {
    var t := [token] + ts;
    forall i | 1 <= i < |t| ensures t[i] != ""
    {
      assert t[i] == ts[i - 1];
    }
  }

  /** A run that stops at once stops properly. */
  lemma StopsHere(respond: (nat, string) -> Response, parse: Parser, page: nat, token: string,
                  acc: seq<PlacePayload>)
    requires page <= MAX_PAGES
    requires !(page < MAX_PAGES && |acc| < MAX_RESULTS && respond(page, token).Page?
               && respond(page, token).nextPageToken != "")
    ensures StoppedProperly(respond, page, FetchFrom(respond, parse, page, token, acc))
  {
    var r := FetchFrom(respond, parse, page, token, acc);
    if page == MAX_PAGES || |acc| >= MAX_RESULTS {
      assert r == (acc, [], true);
    } else {
      assert r.1 == [token] && (r.2 <==> respond(page, token).Page?);
      assert page + |r.1| - 1 == page && r.1[|r.1| - 1] == token;
    }
  }

  /** A run that goes on stops properly when the rest of it does. */
  lemma StopsLater(respond: (nat, string) -> Response, parse: Parser, page: nat, token: string,
                   acc: seq<PlacePayload>)
    requires page < MAX_PAGES && |acc| < MAX_RESULTS
    requires respond(page, token).Page? && respond(page, token).nextPageToken != ""
    requires var resp := respond(page, token);
      StoppedProperly(respond, page + 1, FetchFrom(respond, parse, page + 1, resp.nextPageToken, acc + parse(resp.results)))
    ensures StoppedProperly(respond, page, FetchFrom(respond, parse, page, token, acc))
  {
    var resp := respond(page, token);
    FetchFromNext(respond, parse, page, token, acc);
    StoppedShift(respond, page, token, FetchFrom(respond, parse, page + 1, resp.nextPageToken, acc + parse(resp.results)));
  }

  /** Putting one more request in front of a run that stopped properly
      from the next page gives a run that stopped properly from this one. */
  lemma StoppedShift(respond: (nat, string) -> Response, page: nat, token: string,
                     r: (seq<PlacePayload>, seq<string>, bool))
    requires StoppedProperly(respond, page + 1, r)
    ensures StoppedProperly(respond, page, (r.0, [token] + r.1, r.2))
  {
    var t := [token] + r.1;
    var m := |r.1|;
    if m >= 1 {
      assert t[|t| - 1] == r.1[m - 1];
      assert page + |t| - 1 == (page + 1) + m - 1;
    }
  }

  lemma {:induction false} FetchFromStops(respond: (nat, string) -> Response, parse: Parser, page: nat, token: string,
                                          acc: seq<PlacePayload>)
    requires page <= MAX_PAGES
    ensures StoppedProperly(respond, page, FetchFrom(respond, parse, page, token, acc))
    decreases MAX_PAGES - page
  {
    if page < MAX_PAGES && |acc| < MAX_RESULTS && respond(page, token).Page?
       && respond(page, token).nextPageToken != "" {
      var resp := respond(page, token);
      FetchFromStops(respond, parse, page + 1, resp.nextPageToken, acc + parse(resp.results));
      StopsLater(respond, parse, page, token, acc);
    } else {
      StopsHere(respond, parse, page, token, acc);
    }
  }

  lemma FetchFromRequests(respond: (nat, string) -> Response, parse: Parser, page: nat, token: string,
                          acc: seq<PlacePayload>)
    requires page <= MAX_PAGES
    ensures var r := FetchFrom(respond, parse, page, token, acc);
      (page < MAX_PAGES && |acc| < MAX_RESULTS ==> |r.1| >= 1 && r.1[0] == token)
      && LaterTokensSet(r.1) && StoppedProperly(respond, page, r)
  {
    if page < MAX_PAGES && |acc| < MAX_RESULTS {
      FetchFromFirst(respond, parse, page, token, acc);
    }
    FetchFromLaterTokens(respond, parse, page, token, acc);
    FetchFromStops(respond, parse, page, token, acc);
  }

  /** `fetchPlaces` makes between one and ten requests: the first without a
      token, each later one with the previous page's non-empty token; it
      stops on a failure, at the tenth page, at 200 places or more (a page
      may take it past 200), or when a page has no next-page token. */
  lemma FetchRequests(respond: (nat, string) -> Response)
    ensures var r := Fetch(respond);
      1 <= |r.1| <= MAX_PAGES && r.1[0] == "" && LaterTokensSet(r.1) && StoppedProperly(respond, 0, r)
  {
    FetchFromRequests(respond, PlacesOf, 0, "", []);
  }

  /** The inner loop of `fetchPlaces`: every result that parses is added
      to `places`, in order; an absent `results` adds nothing. */
  method AddParsed(places: seq<PlacePayload>, results: Option<seq<PlaceJson>>) returns (out: seq<PlacePayload>)
    ensures out == places + PlacesOf(results)
  {
    out := places;
    if results.None? {
      return;
    }
    var rs := results.value;
    var i := 0;
    while i < |rs|
      invariant 0 <= i <= |rs|
      invariant out == places + ParseAll(rs[..i])
    {
      assert rs[..i + 1][..i] == rs[..i];
      var place := ParsePlace(rs[i]);
      if place.Some? {
        out := out + [place.value];
      }
      i := i + 1;
    }
    assert rs[..i] == rs;
  }

  /** A fetch result with `tokens` sent before it. */
  function After(tokens: seq<string>, r: (seq<PlacePayload>, seq<string>, bool)): (seq<PlacePayload>, seq<string>, bool)
  {
    (r.0, tokens + r.1, r.2)
  }

  /** One request of `FetchFrom`, unfolded. */
  lemma FetchFromStep(respond: (nat, string) -> Response, parse: Parser, page: nat, token: string,
                      acc: seq<PlacePayload>, tokens: seq<string>)
    requires page < MAX_PAGES && |acc| < MAX_RESULTS
    ensures var resp := respond(page, token);
      After(tokens, FetchFrom(respond, parse, page, token, acc)) ==
        if resp.RequestFailed? then (acc, tokens + [token], false)
        else if resp.nextPageToken == "" then (acc + parse(resp.results), tokens + [token], true)
        else After(tokens + [token], FetchFrom(respond, parse, page + 1, resp.nextPageToken, acc + parse(resp.results)))
  {
    var resp := respond(page, token);
    if resp.Page? && resp.nextPageToken != "" {
      var rest := FetchFrom(respond, parse, page + 1, resp.nextPageToken, acc + parse(resp.results));
      assert tokens + ([token] + rest.1) == (tokens + [token]) + rest.1;
    }
  }

  /** `fetchPlaces`: the places, the tokens of the requests it makes, and
      whether every request succeeded (otherwise it throws). */
  method FetchPlaces(respond: (nat, string) -> Response)
    returns (places: seq<PlacePayload>, tokens: seq<string>, ok: bool)
    ensures (places, tokens, ok) == Fetch(respond)
  {
    places := [];
    tokens := [];
    var nextToken := "";
    var page := 0;
    assert [] + Fetch(respond).1 == Fetch(respond).1;
    assert After([], Fetch(respond)) == Fetch(respond);
    while page < MAX_PAGES && |places| < MAX_RESULTS
      invariant 0 <= page <= MAX_PAGES
      invariant Fetch(respond) == After(tokens, FetchFrom(respond, PlacesOf, page, nextToken, places))
      decreases MAX_PAGES - page
    {
      FetchFromStep(respond, PlacesOf, page, nextToken, places, tokens);
      var response := respond(page, nextToken);
      tokens := tokens + [nextToken];
      if response.RequestFailed? {
        return places, tokens, false;
      }
      places := AddParsed(places, response.results);
      nextToken := response.nextPageToken;
      if nextToken == "" {
        return places, tokens, true;
      }
      page := page + 1;
    }
    ok := true;
    assert tokens + [] == tokens;
  }

  // ---------------------------------------------------------------------
  // De-duplication

  function PlaceKey(p: PlacePayload): string
  {
    BuildRestaurantKey(Some(p.name), Some(p.address))
  }

  /** The keys and the places written after going through `places` with
      the keys `known` already present, each place keyed by `keyOf`
      (`PlaceKey` in the service): a place is skipped when its key is
      non-empty and known; every written place adds its key; nothing is
      written once 200 places have been. */
  function Dedup(places: seq<PlacePayload>, known: set<string>, keyOf: PlacePayload -> string): (r: (set<string>, seq<PlacePayload>))
    ensures |r.1| <= MAX_RESULTS && |r.1| <= |places|
    ensures known <= r.0
    ensures forall i :: 0 <= i < |r.1| ==> keyOf(r.1[i]) in r.0
  {
    if places == [] then (known, [])
    else
      var prev := Dedup(places[..|places| - 1], known, keyOf);
      var p := places[|places| - 1];
      var key := keyOf(p);
      if |prev.1| >= MAX_RESULTS then prev
      else if key != "" && key in prev.0 then prev
      else
        assert keyOf((prev.1 + [p])[|prev.1|]) == key;
        (prev.0 + {key}, prev.1 + [p])
  }

  /** No written place with a non-empty key has a key in `known`. */
  predicate NoneKnown(w: seq<PlacePayload>, known: set<string>, keyOf: PlacePayload -> string)
  {
    forall i :: 0 <= i < |w| && keyOf(w[i]) != "" ==> keyOf(w[i]) !in known
  }

  /** No non-empty key is written twice. */
  predicate NoneRepeated(w: seq<PlacePayload>, keyOf: PlacePayload -> string)
  {
    forall i, j :: 0 <= i < j < |w| && keyOf(w[j]) != "" ==> keyOf(w[i]) != keyOf(w[j])
  }

  /** Every written place with a non-empty key is new: not known before and
      not the key of an earlier written place. */
  lemma {:induction false} DedupWritesNewKeys(places: seq<PlacePayload>, known: set<string>,
                                              keyOf: PlacePayload -> string)
    ensures NoneKnown(Dedup(places, known, keyOf).1, known, keyOf)
    ensures NoneRepeated(Dedup(places, known, keyOf).1, keyOf)
    decreases |places|
  {
    if places != [] {
      var init := places[..|places| - 1];
      DedupWritesNewKeys(init, known, keyOf);
      var prev := Dedup(init, known, keyOf);
      var p := places[|places| - 1];
      var key := keyOf(p);
      if |prev.1| < MAX_RESULTS && !(key != "" && key in prev.0) {
        var w := prev.1 + [p];
        assert Dedup(places, known, keyOf).1 == w;
        forall i | 0 <= i < |w| && keyOf(w[i]) != ""
          ensures keyOf(w[i]) !in known
        {
          if i < |w| - 1 {
            assert w[i] == prev.1[i];
          }
        }
        forall i, j | 0 <= i < j < |w| && keyOf(w[j]) != ""
          ensures keyOf(w[i]) != keyOf(w[j])
        {
          assert w[i] == prev.1[i];
          if j < |w| - 1 {
            assert w[j] == prev.1[j];
          }
        }
      }
    }
  }

  /** Places without a key are never skipped: if no place has a key, the
      first 200 are written as they come. */
  lemma {:induction false} DedupKeepsKeyless(places: seq<PlacePayload>, known: set<string>, keyOf: PlacePayload -> string)
    requires forall i :: 0 <= i < |places| ==> keyOf(places[i]) == ""
    ensures Dedup(places, known, keyOf).1 == places[..if |places| < MAX_RESULTS then |places| else MAX_RESULTS]
    decreases |places|
  {
    if places != [] {
      var init := places[..|places| - 1];
      DedupKeepsKeyless(init, known, keyOf);
      if |places| <= MAX_RESULTS {
        assert places == init + [places[|places| - 1]];
      } else {
        assert init[..MAX_RESULTS] == places[..MAX_RESULTS];
      }
    }
  }

  /** Once 200 places are written, the rest of the list changes nothing. */
  lemma {:induction false} DedupSaturated(places: seq<PlacePayload>, i: nat, known: set<string>, keyOf: PlacePayload -> string)
    requires i <= |places|
    requires |Dedup(places[..i], known, keyOf).1| >= MAX_RESULTS
    ensures Dedup(places, known, keyOf) == Dedup(places[..i], known, keyOf)
    decreases |places| - i
  {
    if i < |places| {
      assert places[..i + 1][..i] == places[..i];
      assert Dedup(places[..i + 1], known, keyOf) == Dedup(places[..i], known, keyOf);
      DedupSaturated(places, i + 1, known, keyOf);
    } else {
      assert places[..i] == places;
    }
  }

  // ---------------------------------------------------------------------
  // The store and the sync

  /** A Firestore field value. */
  datatype Value = Str(s: string) | Num(x: real)

  type Doc = map<string, Value>

  /** `doc.getString(field)`. */
  function DocString(doc: Doc, field: string): Option<string>
  {
    if field in doc && doc[field].Str? then Some(doc[field].s) else None
  }

  function DocKey(doc: Doc): string
  {
    BuildRestaurantKey(DocString(doc, "name"), DocString(doc, "address"))
  }

  /** `doc.getString(field)` returns: the field is missing or holds a
      string. On any other value it throws. */
  predicate StringOrAbsent(doc: Doc, field: string)
  {
    field !in doc || doc[field].Str?
  }

  /** The key of the document can be read without an exception. */
  predicate KeyReadable(doc: Doc)
  {
    StringOrAbsent(doc, "name") && StringOrAbsent(doc, "address")
  }

  /** Every one of the given documents passes `readable`. */
  predicate AllReadable(store: map<string, Doc>, ids: set<string>, readable: Doc -> bool)
  {
    forall id :: id in ids && id in store ==> readable(store[id])
  }

  /** The non-empty keys of the given documents. */
  function KeysOf(store: map<string, Doc>, ids: set<string>, docKey: Doc -> string): set<string>
  {
    set id | id in ids && id in store && docKey(store[id]) != "" :: docKey(store[id])
  }

  /** One more document's key. */
  lemma KeysOfAdd(store: map<string, Doc>, ids: set<string>, id: string, docKey: Doc -> string)
    requires id in store
    ensures KeysOf(store, ids + {id}, docKey) ==
      KeysOf(store, ids, docKey) + (if docKey(store[id]) != "" then {docKey(store[id])} else {})
  {
  }

  /** The first loop of `syncRestaurants`: the key of every document of
      the collection, the empty key left out. A document whose key cannot
      be read (`readable` false) throws, and then no set is returned. */
  method CollectKeys(store: map<string, Doc>, docKey: Doc -> string, readable: Doc -> bool)
    returns (keys: Option<set<string>>)
    ensures keys.None? <==> !AllReadable(store, store.Keys, readable)
    ensures keys.Some? ==> keys.value == KeysOf(store, store.Keys, docKey)
  {
    var ids := store.Keys;
    ghost var seen: set<string> := {};
    var found: set<string> := {};
    while ids != {}
      invariant ids <= store.Keys && seen == store.Keys - ids
      invariant found == KeysOf(store, seen, docKey)
      invariant AllReadable(store, seen, readable)
      decreases |ids|
    {
      var id :| id in ids;
      if !readable(store[id]) {
        return None;
      }
      var key := docKey(store[id]);
      KeysOfAdd(store, seen, id, docKey);
      AllReadableAdd(store, seen, id, readable);
      if key != "" {
        found := found + {key};
      }
      TakeOne(store.Keys, ids, id);
      ids, seen := ids - {id}, seen + {id};
    }
    keys := Some(found);
  }

  /** One more readable document. */
  lemma AllReadableAdd(store: map<string, Doc>, ids: set<string>, id: string, readable: Doc -> bool)
    requires AllReadable(store, ids, readable) && id in store && readable(store[id])
    ensures AllReadable(store, ids + {id}, readable)
  {
  }

  /** Moving one element from the unvisited set to the visited one. */
  lemma TakeOne<T>(all: set<T>, ids: set<T>, id: T)
    requires id in ids && ids <= all
    ensures ids - {id} <= all && all - (ids - {id}) == (all - ids) + {id}
  {
  }

  /** The fields written for a place. */
  function PlaceData(p: PlacePayload, region: string): (d: Doc)
    ensures d.Keys == {"name", "address", "latitude", "longitude", "category", "region"}
  {
    map["name" := Str(p.name), "address" := Str(p.address), "latitude" := Num(p.latitude),
        "longitude" := Num(p.longitude), "category" := Str(p.category), "region" := Str(region)]
  }

  /** `document(id).set(data, SetOptions.merge())`: the given fields replace
      the document's, the others stay. */
  function Merge(store: map<string, Doc>, id: string, data: Doc): (r: map<string, Doc>)
    ensures r.Keys == store.Keys + {id}
  {
    store[id := (if id in store then store[id] else map[]) + data]
  }

  /** A merge write sets the given fields, keeps the document's other
      fields and leaves every other document as it was. */
  lemma MergeFields(store: map<string, Doc>, id: string, data: Doc)
    ensures var r := Merge(store, id, data);
      (forall f :: f in data ==> f in r[id] && r[id][f] == data[f])
      && (id in store ==> forall f :: f in store[id] && f !in data ==> f in r[id] && r[id][f] == store[id][f])
      && (forall other :: other in store && other != id ==> r[other] == store[other])
  {
  }

  /** The store after writing the places in order. */
  function ApplyWrites(store: map<string, Doc>, ws: seq<PlacePayload>, region: string): (r: map<string, Doc>)
    ensures store.Keys <= r.Keys
  {
    if ws == [] then store
    else
      var last := ws[|ws| - 1];
      Merge(ApplyWrites(store, ws[..|ws| - 1], region), last.placeId, PlaceData(last, region))
  }

  /** Every written place has a document afterwards, and nothing else is
      created. */
  lemma {:induction false} ApplyWritesCreates(store: map<string, Doc>, ws: seq<PlacePayload>, region: string)
    ensures forall i :: 0 <= i < |ws| ==> ws[i].placeId in ApplyWrites(store, ws, region)
    ensures forall id :: id in ApplyWrites(store, ws, region) ==>
      id in store || exists i :: 0 <= i < |ws| && ws[i].placeId == id
    decreases |ws|
  {
    if ws != [] {
      var init, last := ws[..|ws| - 1], ws[|ws| - 1];
      ApplyWritesCreates(store, init, region);
      var before := ApplyWrites(store, init, region);
      var after := ApplyWrites(store, ws, region);
      assert after.Keys == before.Keys + {last.placeId};
      forall i | 0 <= i < |ws| ensures ws[i].placeId in after
      {
        if i < |init| {
          assert ws[i] == init[i];
        }
      }
      forall id | id in after && id !in store
        ensures exists i :: 0 <= i < |ws| && ws[i].placeId == id
      {
        if id == last.placeId {
          assert ws[|ws| - 1].placeId == id;
        } else {
          var k :| 0 <= k < |init| && init[k].placeId == id;
          assert ws[k].placeId == id;
        }
      }
    }
  }

  datatype SyncResult = MissingApiKey | SyncFailed | Synced(processedCount: nat, newCount: nat)

  /** One more place seen by `Dedup`. */
  lemma DedupStep(places: seq<PlacePayload>, i: nat, known: set<string>, keyOf: PlacePayload -> string)
    requires i < |places|
    ensures var prev := Dedup(places[..i], known, keyOf);
      var key := keyOf(places[i]);
      Dedup(places[..i + 1], known, keyOf) ==
        if |prev.1| >= MAX_RESULTS || (key != "" && key in prev.0) then prev
        else (prev.0 + {key}, prev.1 + [places[i]])
  {
    assert places[..i + 1][..i] == places[..i];
  }

  /** The places written after a prefix of the list are the first ones
      written after the whole list. */
  lemma {:induction false} DedupPrefix(places: seq<PlacePayload>, i: nat, known: set<string>,
                                       keyOf: PlacePayload -> string)
    requires i <= |places|
    ensures var a := Dedup(places[..i], known, keyOf).1;
      var b := Dedup(places, known, keyOf).1;
      |a| <= |b| && b[..|a|] == a
    decreases |places|
  {
    if i == |places| {
      assert places[..i] == places;
    } else {
      var init := places[..|places| - 1];
      assert init[..i] == places[..i];
      DedupPrefix(init, i, known, keyOf);
      var a := Dedup(places[..i], known, keyOf).1;
      var c := Dedup(init, known, keyOf).1;
      var b := Dedup(places, known, keyOf).1;
      assert b == c || b == c + [places[|places| - 1]];
      assert b[..|c|] == c;
      assert b[..|a|] == c[..|a|];
    }
  }

  /** One more write applied. */
  lemma ApplyWritesStep(store: map<string, Doc>, ws: seq<PlacePayload>, p: PlacePayload, region: string)
    ensures ApplyWrites(store, ws + [p], region) == Merge(ApplyWrites(store, ws, region), p.placeId, PlaceData(p, region))
  {
    assert (ws + [p])[..|ws|] == ws;
  }

  /** The keys, the written places and the collection after the write
      loop has seen the first `i` places. */
  function Progress(store: map<string, Doc>, places: seq<PlacePayload>, i: nat, existing: set<string>,
                    keyOf: PlacePayload -> string, region: string): (set<string>, seq<PlacePayload>, map<string, Doc>)
    requires i <= |places|
  {
    var d := Dedup(places[..i], existing, keyOf);
    (d.0, d.1, ApplyWrites(store, d.1, region))
  }

  /** One pass of the write loop below the limit: a known non-empty key
      is skipped, any other place is written and its key recorded. */
  lemma WriteStep(store: map<string, Doc>, places: seq<PlacePayload>, i: nat, existing: set<string>,
                  keyOf: PlacePayload -> string, region: string)
    requires i < |places|
    requires |Progress(store, places, i, existing, keyOf, region).1| < MAX_RESULTS
    ensures var (keys, done, written) := Progress(store, places, i, existing, keyOf, region);
      var p := places[i];
      var key := keyOf(p);
      Progress(store, places, i + 1, existing, keyOf, region) ==
        if key != "" && key in keys then (keys, done, written)
        else (keys + {key}, done + [p], Merge(written, p.placeId, PlaceData(p, region)))
  {
    DedupStep(places, i, existing, keyOf);
    ApplyWritesStep(store, Progress(store, places, i, existing, keyOf, region).1, places[i], region);
  }

  /** A place the loop is about to write is the next one of the whole
      list's writes: the places written so far are a proper prefix. */
  lemma WriteFails(places: seq<PlacePayload>, i: nat, existing: set<string>, keyOf: PlacePayload -> string)
    requires i < |places|
    requires var d := Dedup(places[..i], existing, keyOf);
      |d.1| < MAX_RESULTS && !(keyOf(places[i]) != "" && keyOf(places[i]) in d.0)
    ensures var done := Dedup(places[..i], existing, keyOf).1;
      var w := Dedup(places, existing, keyOf).1;
      |done| < |w| && w[..|done|] == done
  {
    var done := Dedup(places[..i], existing, keyOf).1;
    var w := Dedup(places, existing, keyOf).1;
    DedupStep(places, i, existing, keyOf);
    DedupPrefix(places, i + 1, existing, keyOf);
    assert w[..|done| + 1] == done + [places[i]];
    assert w[..|done|] == (w[..|done| + 1])[..|done|];
  }

  /** The loop stopped by a failed write has written a proper prefix of
      the whole list's writes. */
  lemma WriteStops(store: map<string, Doc>, places: seq<PlacePayload>, i: nat, existing: set<string>,
                   keyOf: PlacePayload -> string, region: string)
    requires i < |places|
    requires var pr := Progress(store, places, i, existing, keyOf, region);
      |pr.1| < MAX_RESULTS && !(keyOf(places[i]) != "" && keyOf(places[i]) in pr.0)
    ensures var w := Dedup(places, existing, keyOf).1;
      var pr := Progress(store, places, i, existing, keyOf, region);
      |pr.1| < |w| && pr.2 == ApplyWrites(store, w[..|pr.1|], region)
  {
    WriteFails(places, i, existing, keyOf);
  }

  /** The write loop of `syncRestaurants` on the collection `store`: the
      collection afterwards and the summary's two counts. `failAt` is the
      index, among the writes, of the first `set` that throws, if any: the
      loop stops there with the earlier writes done. */
  method WriteNewPlaces(store: map<string, Doc>, places: seq<PlacePayload>, region: string, existing: set<string>,
                        keyOf: PlacePayload -> string, failAt: Option<nat>)
    returns (written: map<string, Doc>, processed: nat, newCount: nat, failed: bool)
    ensures var w := Dedup(places, existing, keyOf).1;
      failed <==> failAt.Some? && failAt.value < |w|
    ensures var w := Dedup(places, existing, keyOf).1;
      !failed ==> processed == newCount == |w| && written == ApplyWrites(store, w, region)
    ensures var w := Dedup(places, existing, keyOf).1;
      failed ==> written == ApplyWrites(store, w[..failAt.value], region)
  {
    var i;
    written, processed, newCount, i, failed := WriteLoop(store, places, region, existing, keyOf, failAt);
    if failed {
      WriteStops(store, places, i, existing, keyOf, region);
    } else {
      WriteDone(store, places, i, existing, keyOf, region);
    }
  }

  /** The loop itself, stated on `Progress`: it stops at the end of the
      list, at the limit, or on the place whose write throws. */
  method WriteLoop(store: map<string, Doc>, places: seq<PlacePayload>, region: string, existing: set<string>,
                   keyOf: PlacePayload -> string, failAt: Option<nat>)
    returns (written: map<string, Doc>, processed: nat, newCount: nat, i: nat, failed: bool)
    ensures i <= |places|
    ensures var pr := Progress(store, places, i, existing, keyOf, region);
      written == pr.2 && processed == newCount == |pr.1|
    ensures failed ==>
      var pr := Progress(store, places, i, existing, keyOf, region);
      i < |places| && |pr.1| < MAX_RESULTS && !(keyOf(places[i]) != "" && keyOf(places[i]) in pr.0)
      && failAt.Some? && failAt.value == processed
    ensures !failed ==>
      (i == |places| || processed >= MAX_RESULTS) && (failAt.Some? ==> processed <= failAt.value)
  {
    var keys := existing;
    ghost var done: seq<PlacePayload> := [];
    written := store;
    newCount := 0;
    processed := 0;
    failed := false;
    i := 0;
    assert places[..0] == [];
    while i < |places| && processed < MAX_RESULTS
      invariant 0 <= i <= |places|
      invariant (keys, done, written) == Progress(store, places, i, existing, keyOf, region)
      invariant processed == newCount == |done|
      invariant failAt.Some? ==> processed <= failAt.value
    {
      var place := places[i];
      var key := keyOf(place);
      var isNew := !(key != "" && key in keys);
      if isNew && failAt.Some? && failAt.value == processed {
        failed := true;
        return;
      }
      WriteStep(store, places, i, existing, keyOf, region);
      if isNew {
        written := Merge(written, place.placeId, PlaceData(place, region));
        keys := keys + {key};
        done := done + [place];
        newCount := newCount + 1;
        processed := processed + 1;
      }
      i := i + 1;
    }
  }

  /** The write loop stops at the end of the list or at the limit, and
      either way has written what `Dedup` keeps. */
  lemma WriteDone(store: map<string, Doc>, places: seq<PlacePayload>, i: nat, existing: set<string>,
                  keyOf: PlacePayload -> string, region: string)
    requires i <= |places|
    requires i == |places| || |Progress(store, places, i, existing, keyOf, region).1| >= MAX_RESULTS
    ensures var w := Dedup(places, existing, keyOf).1;
      Progress(store, places, i, existing, keyOf, region).1 == w
      && Progress(store, places, i, existing, keyOf, region).2 == ApplyWrites(store, w, region)
  {
    if i < |places| {
      DedupSaturated(places, i, existing, keyOf);
    } else {
      assert places[..i] == places;
    }
  }

  class RestaurantSyncService {
    const apiKey: string
    /** The `restaurants` collection. */
    var restaurants: map<string, Doc>
    /** The page tokens of the Places requests made, "" for none. */
    var requests: seq<string>

    constructor (apiKey: string, restaurants: map<string, Doc>)
      ensures this.apiKey == apiKey && this.restaurants == restaurants && requests == []
    {
      this.apiKey := apiKey;
      this.restaurants := restaurants;
      requests := [];
    }

    /** The first loop of `syncRestaurants` on the `restaurants` collection:
        no keys when a name or address is not a string. */
    method ExistingKeys() returns (keys: Option<set<string>>)
      ensures keys.None? <==> !AllReadable(restaurants, restaurants.Keys, KeyReadable)
      ensures keys.Some? ==> keys.value == KeysOf(restaurants, restaurants.Keys, DocKey)
    {
      keys := CollectKeys(restaurants, DocKey, KeyReadable);
    }

    /** `syncRestaurants`, run to completion. `readOk` says whether reading
        the collection succeeds and `failAt` which write, if any, throws
        first. Without an API key nothing is read, requested or written. A
        failed read, or a name or address that is not a string, fails before
        any request. A failed request writes nothing. Otherwise the new
        places are written in order: a failed write leaves the earlier ones
        in place and sends no summary, and a run without one counts them. */
    method SyncRestaurants(region: string, readOk: bool, respond: (nat, string) -> Response, failAt: Option<nat>)
      returns (r: SyncResult)
      modifies this
      ensures apiKey == "" ==> r == MissingApiKey && restaurants == old(restaurants) && requests == old(requests)
      ensures apiKey != "" && !(readOk && AllReadable(old(restaurants), old(restaurants).Keys, KeyReadable)) ==>
        r == SyncFailed && restaurants == old(restaurants) && requests == old(requests)
      ensures apiKey != "" && readOk && AllReadable(old(restaurants), old(restaurants).Keys, KeyReadable) ==>
        var fetched := Fetch(respond);
        requests == old(requests) + fetched.1
        && (!fetched.2 ==> r == SyncFailed && restaurants == old(restaurants))
        && (fetched.2 ==>
              var w := Dedup(fetched.0, KeysOf(old(restaurants), old(restaurants).Keys, DocKey), PlaceKey).1;
              if failAt.Some? && failAt.value < |w| then
                r == SyncFailed && restaurants == ApplyWrites(old(restaurants), w[..failAt.value], region)
              else
                r == Synced(|w|, |w|) && restaurants == ApplyWrites(old(restaurants), w, region))
    {
      if apiKey == "" {
        return MissingApiKey;
      }
      if !readOk {
        return SyncFailed;
      }
      var existing := ExistingKeys();
      if existing.None? {
        return SyncFailed;
      }
      var places, tokens, ok := FetchPlaces(respond);
      requests := requests + tokens;
      if !ok {
        return SyncFailed;
      }
      var written, processed, newCount, failed :=
        WriteNewPlaces(restaurants, places, region, existing.value, PlaceKey, failAt);
      restaurants := written;
      if failed {
        return SyncFailed;
      }
      r := Synced(processed, newCount);
    }
  }
}
