/**
 * The barbershop onboarding endpoint: an authenticated owner without a barbershop posts the
 * shop's details; the shop is inserted with a slug derived from its name, the owner's profile
 * is linked to it, and default services and working hours are seeded. The tables are fields
 * of `Database`; the clock, the new row id and the database's failures are parameters.
 */
module Setup {
  import opened Wrappers
  import opened Strings

  // ----- the slug -----

  /** The characters of `\w` in a JavaScript regular expression: ASCII letters, digits, `_`. */
  predicate IsWordChar(c: char)
  {
    ('a' <= c <= 'z') || ('A' <= c <= 'Z') || ('0' <= c <= '9') || c == '_'
  }

  /** The characters `[^\w\s-]` does not match, i.e. those the first replacement keeps. */
  predicate Kept(c: char)
  {
    IsWordChar(c) || IsJsSpace(c) || c == '-'
  }

  /** The characters a base slug is made of: lower-case ASCII letters, digits, `_` and `-`. */
  predicate SlugChar(c: char)
  {
    ('a' <= c <= 'z') || ('0' <= c <= '9') || c == '_' || c == '-'
  }

  /** No two hyphens side by side. */
  predicate NoDoubleDash(s: string)
  {
    forall i :: 0 <= i < |s| - 1 ==> !(s[i] == '-' && s[i + 1] == '-')
  }

  /** The word characters of `s`, in order: what a slug keeps of a name besides its separators. */
  function Words(s: string): string
  {
    if s == [] then [] else (if IsWordChar(s[0]) then [s[0]] else []) + Words(s[1..])
  }

  lemma {:induction false} WordsAppend(a: string, b: string)
    ensures Words(a + b) == Words(a) + Words(b)
  {
    if a == [] {
      assert a + b == b;
    } else {
      assert (a + b)[0] == a[0] && (a + b)[1..] == a[1..] + b;
      WordsAppend(a[1..], b);
    }
  }

  /** `.replace(/[^\w\s-]/g, "")`: exactly the kept characters survive, in order. */
  function StripSymbols(s: string): (r: string)
    ensures |r| <= |s|
    ensures forall c :: c in r <==> c in s && Kept(c)
    ensures Words(r) == Words(s)
    ensures (forall c :: c in s ==> Kept(c)) ==> r == s
  {
    if s == [] then []
    else if Kept(s[0]) then
      var r := [s[0]] + StripSymbols(s[1..]);
      assert r[0] == s[0] && r[1..] == StripSymbols(s[1..]);
      assert forall c :: c in s[1..] ==> c in s;
      r
    else StripSymbols(s[1..])
  }

  /** Stripping works character by character: a split text is stripped as its two parts. */
  lemma {:induction false} StripSymbolsAppend(a: string, b: string)
    ensures StripSymbols(a + b) == StripSymbols(a) + StripSymbols(b)
  {
    if a == [] {
      assert a + b == b;
    } else {
      assert (a + b)[0] == a[0] && (a + b)[1..] == a[1..] + b;
      StripSymbolsAppend(a[1..], b);
    }
  }

  /** What is left after a leading run of hyphens. */
  function DropDashes(s: string): (r: string)
    ensures |r| <= |s| && r == s[|s| - |r|..]
    ensures r != [] ==> r[0] != '-'
    ensures s != [] && s[0] == '-' ==> |r| < |s|
    ensures forall k :: 0 <= k < |s| - |r| ==> s[k] == '-'
  {
    if s != [] && s[0] == '-' then DropDashes(s[1..]) else s
  }

  /** Dropping a leading run of white space or hyphens keeps the word characters. */
  lemma {:induction false} WordsOfSuffix(s: string, n: nat)
    requires n <= |s|
    requires forall k :: 0 <= k < n ==> !IsWordChar(s[k])
    ensures Words(s[n..]) == Words(s)
  {
    if n > 0 {
      assert s[1..][n - 1..] == s[n..];
      WordsOfSuffix(s[1..], n - 1);
    }
  }

  /** `.replace(/\s+/g, "-")`: every maximal run of white space becomes one hyphen. */
  function DashSpaces(s: string): (r: string)
    ensures s != [] ==> r != [] && r[0] == (if IsJsSpace(s[0]) then '-' else s[0])
    decreases |s|
  {
    if s == [] then []
    else if IsJsSpace(s[0]) then
      var r := "-" + DashSpaces(TrimStart(s[1..]));
      assert r[0] == '-';
      r
    else
      var r := [s[0]] + DashSpaces(s[1..]);
      assert r[0] == s[0];
      r
  }

  /** Replacing white space adds only hyphens: every other character comes from `s`. */
  lemma {:induction false} DashSpacesChars(s: string)
    ensures forall c :: c in DashSpaces(s) ==> c == '-' || (c in s && !IsJsSpace(c))
    decreases |s|
  {
    if s != [] {
      if IsJsSpace(s[0]) {
        var rest := TrimStart(s[1..]);
        assert forall c :: c in rest ==> c in s by {
          assert rest == s[1..][|s[1..]| - |rest|..];
        }
        DashSpacesChars(rest);
        assert DashSpaces(s) == "-" + DashSpaces(rest);
      } else {
        assert forall c :: c in s[1..] ==> c in s;
        DashSpacesChars(s[1..]);
        assert DashSpaces(s) == [s[0]] + DashSpaces(s[1..]);
      }
    }
  }

  /** Replacing white space keeps every word character, in order. */
  lemma {:induction false} DashSpacesKeepsWords(s: string)
    ensures Words(DashSpaces(s)) == Words(s)
    decreases |s|
  {
    if s != [] {
      var r := DashSpaces(s);
      if IsJsSpace(s[0]) {
        var rest := TrimStart(s[1..]);
        WordsOfSuffix(s[1..], |s[1..]| - |rest|);
        DashSpacesKeepsWords(rest);
        assert r[1..] == DashSpaces(rest);
      } else {
        DashSpacesKeepsWords(s[1..]);
        assert r[1..] == DashSpaces(s[1..]);
      }
    }
  }

  lemma DashSpacesCons(c: char, y: string)
    requires !IsJsSpace(c)
    ensures DashSpaces([c] + y) == [c] + DashSpaces(y)
  {
    assert ([c] + y)[0] == c && ([c] + y)[1..] == y;
  }

  /** Text without white space passes through unchanged, in front of whatever follows. */
  lemma {:induction false} DashSpacesWord(w: string, x: string)
    requires forall k :: 0 <= k < |w| ==> !IsJsSpace(w[k])
    ensures DashSpaces(w + x) == w + DashSpaces(x)
  {
    if w == [] {
      assert w + x == x;
    } else {
      assert w + x == [w[0]] + (w[1..] + x);
      DashSpacesCons(w[0], w[1..] + x);
      DashSpacesWord(w[1..], x);
      assert w == [w[0]] + w[1..];
    }
  }

  /** A run of white space loses all of its characters to `trim`'s start. */
  lemma {:induction false} TrimStartRun(sp: string, rest: string)
    requires forall k :: 0 <= k < |sp| ==> IsJsSpace(sp[k])
    requires rest == [] || !IsJsSpace(rest[0])
    ensures TrimStart(sp + rest) == rest
  {
    if sp == [] {
      assert sp + rest == rest;
    } else {
      assert (sp + rest)[1..] == sp[1..] + rest;
      TrimStartRun(sp[1..], rest);
    }
  }

  /** One maximal run of white space between two pieces of text becomes exactly one hyphen. */
  lemma DashSpacesRun(w: string, sp: string, rest: string)
    requires forall k :: 0 <= k < |w| ==> !IsJsSpace(w[k])
    requires |sp| > 0 && forall k :: 0 <= k < |sp| ==> IsJsSpace(sp[k])
    requires rest == [] || !IsJsSpace(rest[0])
    ensures DashSpaces(w + sp + rest) == w + "-" + DashSpaces(rest)
  {
    var tail := sp + rest;
    var d := DashSpaces(rest);
    assert w + sp + rest == w + tail;
    assert DashSpaces(w + tail) == w + DashSpaces(tail) by {
      DashSpacesWord(w, tail);
    }
    assert DashSpaces(tail) == "-" + d by {
      DashSpacesRunHead(sp, rest);
    }
    assert w + ("-" + d) == w + "-" + d;
  }

  lemma DashSpacesRunHead(sp: string, rest: string)
    requires |sp| > 0 && forall k :: 0 <= k < |sp| ==> IsJsSpace(sp[k])
    requires rest == [] || !IsJsSpace(rest[0])
    ensures DashSpaces(sp + rest) == "-" + DashSpaces(rest)
  {
    var tail := sp + rest;
    assert tail[0] == sp[0] && IsJsSpace(tail[0]);
    assert tail[1..] == sp[1..] + rest;
    assert TrimStart(tail[1..]) == rest by {
      TrimStartRun(sp[1..], rest);
    }
  }

  /** Text without hyphens, in order: what a slug keeps between its separators. */
  function NonDash(s: string): string
  {
    if s == [] then [] else (if s[0] == '-' then [] else [s[0]]) + NonDash(s[1..])
  }

  lemma {:induction false} NonDashOfSuffix(s: string, n: nat)
    requires n <= |s|
    requires forall k :: 0 <= k < n ==> s[k] == '-'
    ensures NonDash(s[n..]) == NonDash(s)
  {
    if n > 0 {
      assert s[1..][n - 1..] == s[n..];
      NonDashOfSuffix(s[1..], n - 1);
    }
  }

  /** `.replace(/-+/g, "-")`: every run of hyphens becomes one, so no "--" is left. */
  function CollapseDashes(s: string): (r: string)
    ensures s != [] ==> r != [] && r[0] == s[0]
    ensures NoDoubleDash(r)
    decreases |s|
  {
    if s == [] then []
    else if s[0] == '-' then
      var r := "-" + CollapseDashes(DropDashes(s));
      assert r[1..] == CollapseDashes(DropDashes(s));
      r
    else
      var r := [s[0]] + CollapseDashes(s[1..]);
      assert r[0] == s[0] && r[1..] == CollapseDashes(s[1..]);
      r
  }

  /** Collapsing hyphens adds no character. */
  lemma {:induction false} CollapseDashesChars(s: string)
    ensures forall c :: c in CollapseDashes(s) ==> c in s
    decreases |s|
  {
    if s != [] {
      if s[0] == '-' {
        var rest := DropDashes(s);
        assert forall c :: c in rest ==> c in s;
        CollapseDashesChars(rest);
        assert CollapseDashes(s) == "-" + CollapseDashes(rest);
      } else {
        assert forall c :: c in s[1..] ==> c in s;
        CollapseDashesChars(s[1..]);
        assert CollapseDashes(s) == [s[0]] + CollapseDashes(s[1..]);
      }
    }
  }

  /** Collapsing hyphens keeps every other character, in order and with its repetitions. */
  lemma {:induction false} CollapseDashesKeepsNonDash(s: string)
    ensures NonDash(CollapseDashes(s)) == NonDash(s)
    decreases |s|
  {
    if s != [] {
      var r := CollapseDashes(s);
      if s[0] == '-' {
        var rest := DropDashes(s);
        NonDashOfSuffix(s, |s| - |rest|);
        CollapseDashesKeepsNonDash(rest);
        assert r[1..] == CollapseDashes(rest);
      } else {
        CollapseDashesKeepsNonDash(s[1..]);
        assert r[1..] == CollapseDashes(s[1..]);
      }
    }
  }

  lemma CollapseDashesCons(c: char, y: string)
    requires c != '-'
    ensures CollapseDashes([c] + y) == [c] + CollapseDashes(y)
  {
    assert ([c] + y)[0] == c && ([c] + y)[1..] == y;
  }

  /** Text without hyphens passes through unchanged, in front of whatever follows. */
  lemma {:induction false} CollapseDashesWord(w: string, x: string)
    requires forall k :: 0 <= k < |w| ==> w[k] != '-'
    ensures CollapseDashes(w + x) == w + CollapseDashes(x)
  {
    if w == [] {
      assert w + x == x;
    } else {
      assert w + x == [w[0]] + (w[1..] + x);
      CollapseDashesCons(w[0], w[1..] + x);
      CollapseDashesWord(w[1..], x);
      assert w == [w[0]] + w[1..];
    }
  }

  /** One maximal run of hyphens between two pieces of text becomes exactly one hyphen. */
  lemma CollapseDashesRun(w: string, ds: string, rest: string)
    requires forall k :: 0 <= k < |w| ==> w[k] != '-'
    requires |ds| > 0 && forall k :: 0 <= k < |ds| ==> ds[k] == '-'
    requires rest == [] || rest[0] != '-'
    ensures CollapseDashes(w + ds + rest) == w + "-" + CollapseDashes(rest)
  {
    var tail := ds + rest;
    var d := CollapseDashes(rest);
    assert w + ds + rest == w + tail;
    assert CollapseDashes(w + tail) == w + CollapseDashes(tail) by {
      CollapseDashesWord(w, tail);
    }
    assert CollapseDashes(tail) == "-" + d by {
      CollapseDashesRunHead(ds, rest);
    }
    assert w + ("-" + d) == w + "-" + d;
  }

  lemma CollapseDashesRunHead(ds: string, rest: string)
    requires |ds| > 0 && forall k :: 0 <= k < |ds| ==> ds[k] == '-'
    requires rest == [] || rest[0] != '-'
    ensures CollapseDashes(ds + rest) == "-" + CollapseDashes(rest)
  {
    var tail := ds + rest;
    assert tail[0] == '-';
    assert DropDashes(tail) == rest by {
      DropDashesRun(ds, rest);
    }
  }

  lemma {:induction false} DropDashesRun(ds: string, rest: string)
    requires forall k :: 0 <= k < |ds| ==> ds[k] == '-'
    requires rest == [] || rest[0] != '-'
    ensures DropDashes(ds + rest) == rest
  {
    if ds == [] {
      assert ds + rest == rest;
    } else {
      assert (ds + rest)[1..] == ds[1..] + rest;
      DropDashesRun(ds[1..], rest);
    }
  }

  /** Hyphens are not word characters, so dropping them keeps the words. */
  lemma {:induction false} WordsOfNonDash(s: string)
    ensures Words(NonDash(s)) == Words(s)
  {
    if s != [] {
      WordsOfNonDash(s[1..]);
      WordsAppend(if s[0] == '-' then [] else [s[0]], NonDash(s[1..]));
    }
  }

  /** The slug pipeline of the route, applied to the shop's name. */
  function BaseSlug(name: string): string
  {
    CollapseDashes(DashSpaces(StripSymbols(ToLower(name))))
  }

  /**
   * The base slug is lower case and made only of word characters and hyphens: every other
   * character is removed, white space turned into hyphens, and no "--" is left.
   */
  lemma BaseSlugShape(name: string)
    ensures forall c :: c in BaseSlug(name) ==> SlugChar(c)
    ensures NoDoubleDash(BaseSlug(name))
  {
    DashSpacesChars(StripSymbols(ToLower(name)));
    CollapseDashesChars(DashSpaces(StripSymbols(ToLower(name))));
    forall c | c in BaseSlug(name)
      ensures SlugChar(c)
    {
      if 'A' <= c <= 'Z' {
        LowerHasNoUpper(name, c);
      }
    }
  }

  lemma LowerKeepsSlug(s: string)
    requires forall c :: c in s ==> SlugChar(c)
    ensures ToLower(s) == s
  {
    assert forall i :: 0 <= i < |s| ==> SlugChar(s[i]);
  }

  lemma {:induction false} StripKeepsSlug(s: string)
    requires forall c :: c in s ==> SlugChar(c)
    ensures StripSymbols(s) == s
  {
    if s != [] {
      assert s[0] in s;
      StripKeepsSlug(s[1..]);
    }
  }

  lemma {:induction false} DashSpacesKeepsSlug(s: string)
    requires forall c :: c in s ==> SlugChar(c)
    ensures DashSpaces(s) == s
  {
    if s != [] {
      assert s[0] in s;
      SlugCharIsNotSpace(s[0]);
      assert forall c :: c in s[1..] ==> c in s;
      DashSpacesKeepsSlug(s[1..]);
    }
  }

  lemma SlugCharIsNotSpace(c: char)
    requires SlugChar(c)
    ensures !IsJsSpace(c)
  {
  }

  lemma {:induction false} CollapseKeepsSingleDashes(s: string)
    requires NoDoubleDash(s)
    ensures CollapseDashes(s) == s
    decreases |s|
  {
    if s != [] {
      assert NoDoubleDash(s[1..]) by {
        forall i | 0 <= i < |s[1..]| - 1
          ensures !(s[1..][i] == '-' && s[1..][i + 1] == '-')
        {
          assert s[1..][i] == s[i + 1] && s[1..][i + 1] == s[i + 2];
        }
      }
      CollapseKeepsSingleDashes(s[1..]);
      if s[0] == '-' {
        assert DropDashes(s) == s[1..] by {
          if |s| > 1 {
            assert s[1] != '-';
          }
        }
      }
    }
  }

  /**
   * The base slug keeps every letter, digit and '_' of the lower-cased name, in order and
   * with their repetitions: only separators and symbols differ.
   */
  lemma BaseSlugKeepsWords(name: string)
    ensures Words(BaseSlug(name)) == Words(ToLower(name))
  {
    var spaced := DashSpaces(StripSymbols(ToLower(name)));
    DashSpacesKeepsWords(StripSymbols(ToLower(name)));
    CollapseDashesKeepsNonDash(spaced);
    WordsOfNonDash(CollapseDashes(spaced));
    WordsOfNonDash(spaced);
  }

  /** Deriving the slug twice changes nothing: a base slug is its own slug. */
  lemma BaseSlugIdempotent(name: string)
    ensures BaseSlug(BaseSlug(name)) == BaseSlug(name)
  {
    var b := BaseSlug(name);
    BaseSlugShape(name);
    LowerKeepsSlug(b);
    StripKeepsSlug(b);
    DashSpacesKeepsSlug(b);
    CollapseKeepsSingleDashes(b);
  }

  /** `${slug}-${Date.now()}`: the base slug, a hyphen, then the decimal timestamp. */
  function StoredSlug(base: string, millis: nat): (r: string)
    ensures |r| > |base| + 1
    ensures r[..|base|] == base && r[|base|] == '-'
    ensures forall i :: |base| < i < |r| ==> '0' <= r[i] <= '9'
  {
    base + "-" + NatToString(millis)
  }

  /** The stored slug of a name is again made only of slug characters. */
  lemma StoredSlugShape(name: string, millis: nat)
    ensures forall c :: c in StoredSlug(BaseSlug(name), millis) ==> SlugChar(c)
  {
    var b := BaseSlug(name);
    var r := StoredSlug(b, millis);
    BaseSlugShape(name);
    forall c | c in r
      ensures SlugChar(c)
    {
      var i :| 0 <= i < |r| && r[i] == c;
      if i < |b| {
        assert r[i] == r[..|b|][i];
      }
    }
  }

  // ----- the rows -----

  datatype User = User(id: string, email: Option<string>)

  /** The JSON body; every field may be missing. */
  datatype SetupBody = SetupBody(
    name: Option<string>, address: Option<string>, city: Option<string>, state: Option<string>,
    zipCode: Option<string>, country: Option<string>, phone: Option<string>,
    email: Option<string>, website: Option<string>)

  datatype Barbershop = Barbershop(
    id: string, ownerId: string, name: string, slug: string,
    address: Option<string>, city: Option<string>, state: Option<string>,
    zipCode: Option<string>, country: Option<string>, phone: Option<string>,
    email: Option<string>, website: Option<string>,
    timezone: string, currency: string, isActive: bool)

  datatype Profile = Profile(id: string, barbershopId: Option<string>, role: string)

  /** A service row; the price is in cents (the source writes `25.0` and so on). */
  datatype ServiceRow = ServiceRow(
    barbershopId: string, name: string, description: string, category: string,
    durationMinutes: nat, priceCents: nat, isActive: bool)

  datatype WorkingHoursRow = WorkingHoursRow(
    barbershopId: string, dayOfWeek: nat, startTime: string, endTime: string, isAvailable: bool)

  /** `x || null`: a missing or empty string is stored as `null`. */
  function OrNull(o: Option<string>): (r: Option<string>)
    ensures r.Some? <==> Truthy(o)
    ensures r.Some? ==> r == o
  {
    if Truthy(o) then o else None
  }

  /** The barbershop row the route inserts, before the database answers. */
  function NewShop(user: User, body: SetupBody, id: string, millis: nat): (r: Barbershop)
    requires Truthy(body.name)
    ensures r.id == id && r.ownerId == user.id && r.name == body.name.value
    ensures |BaseSlug(body.name.value)| < |r.slug| && r.slug[..|BaseSlug(body.name.value)|] == BaseSlug(body.name.value)
    ensures r.email == (if Truthy(body.email) then body.email else user.email)
    ensures r.address != Some("") && r.city != Some("") && r.state != Some("") && r.zipCode != Some("")
      && r.country != Some("") && r.phone != Some("") && r.website != Some("")
    ensures r.timezone == "UTC" && r.currency == "USD" && r.isActive
  {
    Barbershop(
      id, user.id, body.name.value, StoredSlug(BaseSlug(body.name.value), millis),
      OrNull(body.address), OrNull(body.city), OrNull(body.state), OrNull(body.zipCode),
      OrNull(body.country), OrNull(body.phone),
      if Truthy(body.email) then body.email else user.email,
      OrNull(body.website), "UTC", "USD", true)
  }

  /** The four services every new shop starts with, active and attached to it. */
  function DefaultServices(shopId: string): (r: seq<ServiceRow>)
    ensures |r| == 4
    ensures forall i :: 0 <= i < |r| ==> r[i].barbershopId == shopId && r[i].isActive && r[i].durationMinutes > 0
    ensures forall i, j :: 0 <= i < j < |r| ==> r[i].name != r[j].name
  {
    [ ServiceRow(shopId, "Haircut", "Classic haircut service", "Haircut", 30, 2500, true),
      ServiceRow(shopId, "Beard Trim", "Professional beard trimming", "Beard", 20, 1500, true),
      ServiceRow(shopId, "Fade", "Fade haircut with sharp lines", "Haircut", 35, 3000, true),
      ServiceRow(shopId, "Full Grooming", "Haircut + beard + styling", "Package", 60, 5000, true) ]
  }

  /** Monday to Saturday, one row each and in order, from 09:00; Saturday closes an hour earlier. */
  function DefaultWorkingHours(shopId: string): (r: seq<WorkingHoursRow>)
    ensures |r| == 6
    ensures forall i :: 0 <= i < |r| ==>
      r[i].barbershopId == shopId && r[i].isAvailable && r[i].dayOfWeek == i + 1 && r[i].startTime == "09:00:00"
    ensures forall i :: 0 <= i < |r| ==> r[i].endTime == (if r[i].dayOfWeek == 6 then "17:00:00" else "18:00:00")
  {
    seq(6, i requires 0 <= i < 6 =>
      WorkingHoursRow(shopId, i + 1, "09:00:00", if i + 1 == 6 then "17:00:00" else "18:00:00", true))
  }

  /** The shops of one owner, in table order. */
  function Owned(shops: seq<Barbershop>, owner: string): (r: seq<Barbershop>)
    ensures |r| <= |shops|
    ensures forall x :: x in r <==> x in shops && x.ownerId == owner
  {
    if shops == [] then []
    else
      var init := Owned(shops[..|shops| - 1], owner);
      assert forall x :: x in shops <==> x in shops[..|shops| - 1] || x == shops[|shops| - 1];
      if shops[|shops| - 1].ownerId == owner then init + [shops[|shops| - 1]] else init
  }

  /**
   * `.select("id").eq("owner_id", user.id).single()`: the data is the row only when exactly one
   * row matches; with none, or with several (an error), it is `null`.
   */
  function ExistingShop(shops: seq<Barbershop>, owner: string): (r: Option<string>)
    ensures r.Some? <==> |Owned(shops, owner)| == 1
    ensures r.Some? ==> exists x :: x in shops && x.ownerId == owner && x.id == r.value
  {
    var mine := Owned(shops, owner);
    if |mine| == 1 then
      assert mine[0] in mine;
      Some(mine[0].id)
    else None
  }

  /**
   * Once the route has inserted an owner's first shop, a second call finds it and answers
   * with its id instead of creating another.
   */
  lemma {:induction false} SetupThenExists(shops: seq<Barbershop>, shop: Barbershop)
    requires Owned(shops, shop.ownerId) == []
    ensures ExistingShop(shops + [shop], shop.ownerId) == Some(shop.id)
  {
    assert (shops + [shop])[..|shops + [shop]| - 1] == shops;
  }

  /** The guards before the insert all pass: signed in, no shop yet, a JSON body with a name. */
  predicate ReachesInsert(user: Option<User>, body: Option<SetupBody>, shops: seq<Barbershop>)
  {
    user.Some? && ExistingShop(shops, user.value.id).None? && body.Some? && Truthy(body.value.name)
  }

  /** The answer of the route; `Status` is its HTTP status. */
  datatype SetupResponse =
    | Unauthorized
    | AlreadyExists(id: string)
    | NameRequired
    | CreateFailed
    | Created(shop: Barbershop)
    | InternalError

  function Status(r: SetupResponse): (code: nat)
    ensures code == 201 <==> r.Created?
    ensures code == 200 <==> r.AlreadyExists?
  {
    match r
    case Unauthorized => 401
    case AlreadyExists(_) => 200
    case NameRequired => 400
    case CreateFailed => 500
    case Created(_) => 201
    case InternalError => 500
  }

  /** Which of the route's database writes return an error; only the shop insert is checked. */
  datatype Failures = Failures(shopInsert: bool, profileUpdate: bool, servicesInsert: bool, hoursInsert: bool)

  /** The tables the route reads and writes. */
  class Database {
    var barbershops: seq<Barbershop>
    var profiles: map<string, Profile>
    var services: seq<ServiceRow>
    var workingHours: seq<WorkingHoursRow>

    constructor(shops: seq<Barbershop>, people: map<string, Profile>)
      ensures barbershops == shops && profiles == people && services == [] && workingHours == []
    {
      barbershops := shops;
      profiles := people;
      services := [];
      workingHours := [];
    }

    /** The profiles after `update({barbershop_id, role: "owner"}).eq("id", userId)`. */
    static function LinkedProfiles(profiles: map<string, Profile>, userId: string, shopId: string): (r: map<string, Profile>)
      ensures r.Keys == profiles.Keys
      ensures userId in r ==> r[userId].barbershopId == Some(shopId) && r[userId].role == "owner"
      ensures forall k :: k in r && k != userId ==> r[k] == profiles[k]
    {
      if userId in profiles then profiles[userId := profiles[userId].(barbershopId := Some(shopId), role := "owner")]
      else profiles
    }

    /**
     * `POST /api/barbershop/setup`. `body` is `None` when the request is not JSON; `newId` is the
     * id the database gives the new row and `millis` is `Date.now()`.
     */
    method Setup(user: Option<User>, body: Option<SetupBody>, newId: string, millis: nat, fail: Failures)
      returns (resp: SetupResponse)
      modifies this
      ensures user.None? ==> resp == Unauthorized && unchanged(this)
      ensures user.Some? && ExistingShop(old(barbershops), user.value.id).Some? ==>
        resp == AlreadyExists(ExistingShop(old(barbershops), user.value.id).value) && unchanged(this)
      ensures user.Some? && ExistingShop(old(barbershops), user.value.id).None? && body.None? ==>
        resp == InternalError && unchanged(this)
      ensures user.Some? && ExistingShop(old(barbershops), user.value.id).None? && body.Some? && !Truthy(body.value.name) ==>
        resp == NameRequired && unchanged(this)
      ensures ReachesInsert(user, body, old(barbershops)) && fail.shopInsert ==> resp == CreateFailed && unchanged(this)
      ensures ReachesInsert(user, body, old(barbershops)) && !fail.shopInsert ==>
        var shop := NewShop(user.value, body.value, newId, millis);
        resp == Created(shop)
        && barbershops == old(barbershops) + [shop]
        && profiles == (if fail.profileUpdate then old(profiles) else LinkedProfiles(old(profiles), user.value.id, newId))
        && services == old(services) + (if fail.servicesInsert then [] else DefaultServices(newId))
        && workingHours == old(workingHours) + (if fail.hoursInsert then [] else DefaultWorkingHours(newId))
    {
      if user.None? {
        return Unauthorized;
      }
      var existing := ExistingShop(barbershops, user.value.id);
      if existing.Some? {
        return AlreadyExists(existing.value);
      }
      if body.None? {
        return InternalError;
      }
      if !Truthy(body.value.name) {
        return NameRequired;
      }
      if fail.shopInsert {
        return CreateFailed;
      }
      var shop := NewShop(user.value, body.value, newId, millis);
      barbershops := barbershops + [shop];
      if !fail.profileUpdate {
        profiles := LinkedProfiles(profiles, user.value.id, shop.id);
      }
      if !fail.servicesInsert {
        services := services + DefaultServices(shop.id);
      }
      if !fail.hoursInsert {
        workingHours := workingHours + DefaultWorkingHours(shop.id);
      }
      resp := Created(shop);
    }
  }
}
