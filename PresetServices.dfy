/**
 * The preset catalogue: well-known services the add screen offers as
 * templates, kept in case-insensitive alphabetical order by name, and the
 * case-insensitive search over it.
 */
module Presets {
  import opened Wrappers
  import opened Models
  import opened Seqs

  datatype PresetService = PresetService(
    name: string,
    defaultCost: real,
    defaultCurrency: string,
    category: SubscriptionCategory,
    iconName: string,
    description: string,
    defaultBillingCycle: BillingCycle)

  /** The number of entries in the catalogue. */
  const CatalogueSize: nat := 21

  /** The entry at position `i` of `PresetService.allServices`. */
  function CatalogueEntry(i: nat): PresetService
    requires i < CatalogueSize
  {
    match i
    case 0 => PresetService("Adobe Creative Cloud", 52.99, "USD", Productivity, "paintbrush", "創意軟體套件", Monthly)
    case 1 => PresetService("Amazon Prime Video", 8.99, "USD", Streaming, "tv", "影片串流服務", Monthly)
    case 2 => PresetService("Apple Fitness+", 9.99, "USD", Health, "figure.walk", "健身訓練服務", Monthly)
    case 3 => PresetService("Apple Music", 9.99, "USD", Music, "music.note", "音樂串流服務", Monthly)
    case 4 => PresetService("Canva Pro", 12.99, "USD", Productivity, "paintbrush.pointed", "設計工具", Monthly)
    case 5 => PresetService("Coursera Plus", 59.00, "USD", Education, "graduationcap", "線上課程平台", Monthly)
    case 6 => PresetService("Disney+", 7.99, "USD", Streaming, "tv", "迪士尼影片串流", Monthly)
    case 7 => PresetService("Dropbox Plus", 9.99, "USD", Utilities, "icloud", "雲端儲存服務", Monthly)
    case 8 => PresetService("Figma Professional", 12.00, "USD", Productivity, "rectangle.on.rectangle", "設計協作工具", Monthly)
    case 9 => PresetService("GitHub Pro", 4.00, "USD", Business, "chevron.left.forwardslash.chevron.right", "程式碼託管服務", Monthly)
    case 10 => PresetService("Google One", 1.99, "USD", Utilities, "icloud", "雲端儲存服務", Monthly)
    case 11 => PresetService("HBO Max", 14.99, "USD", Streaming, "tv", "影片串流服務", Monthly)
    case 12 => PresetService("iCloud+", 2.99, "USD", Utilities, "icloud", "雲端儲存服務", Monthly)
    case 13 => PresetService("MasterClass", 15.00, "USD", Education, "graduationcap", "專業技能學習", Monthly)
    case 14 => PresetService("Microsoft 365", 6.99, "USD", Productivity, "doc.text", "辦公軟體套件", Monthly)
    case 15 => PresetService("Netflix", 15.99, "USD", Streaming, "tv", "影片串流服務", Monthly)
    case 16 => PresetService("Notion Pro", 8.00, "USD", Productivity, "note.text", "筆記協作工具", Monthly)
    case 17 => PresetService("PlayStation Plus", 9.99, "USD", Gaming, "gamecontroller", "遊戲訂閱服務", Monthly)
    case 18 => PresetService("Spotify Premium", 9.99, "USD", Music, "music.note", "音樂串流服務", Monthly)
    case 19 => PresetService("Xbox Game Pass Ultimate", 14.99, "USD", Gaming, "gamecontroller", "遊戲訂閱服務", Monthly)
    case _ => PresetService("YouTube Music", 9.99, "USD", Music, "music.note", "音樂串流服務", Monthly)
  }

  /** `PresetService.allServices`, in its order. */
  function AllServices(): (r: seq<PresetService>)
    ensures |r| == CatalogueSize
    ensures forall i :: 0 <= i < |r| ==> r[i] == CatalogueEntry(i)
  {
    seq(CatalogueSize, i requires 0 <= i < CatalogueSize => CatalogueEntry(i))
  }

  /** Case folding on ASCII letters; every other character is its own fold. */
  function LowerChar(c: char): (r: char)
    ensures 'A' <= c <= 'Z' ==> r as int == c as int + 32
    ensures !('A' <= c <= 'Z') ==> r == c
    ensures !('A' <= r <= 'Z')
  {
    if 'A' <= c <= 'Z' then (c as int + 32) as char else c
  }

  /** `a` and `b` have the same length and agree character by character up to case. */
  predicate EqualIgnoringCase(a: string, b: string)
  {
    |a| == |b| && forall i :: 0 <= i < |a| ==> LowerChar(a[i]) == LowerChar(b[i])
  }

  /** `query` occurs in `text` at position `i`, up to case. */
  predicate OccursAt(query: string, text: string, i: int)
  {
    0 <= i <= |text| - |query| && EqualIgnoringCase(text[i..i + |query|], query)
  }

  /** `query` occurs somewhere in `text`, up to case. */
  ghost predicate OccursIgnoringCase(query: string, text: string)
  {
    exists i :: OccursAt(query, text, i)
  }

  /** Whether `text` begins with `query`, up to case, compared character by character. */
  function StartsWithIgnoringCase(text: string, query: string): (r: bool)
    ensures r <==> |query| <= |text| && EqualIgnoringCase(text[..|query|], query)
  {
    if query == [] then true
    else if text == [] then false
    else
      LowerChar(text[0]) == LowerChar(query[0]) && StartsWithIgnoringCase(text[1..], query[1..])
  }

  /** `localizedCaseInsensitiveContains`, by trying each starting position in turn. */
  function ContainsIgnoringCase(text: string, query: string): (r: bool)
    ensures r <==> OccursIgnoringCase(query, text)
  {
    if StartsWithIgnoringCase(text, query) then
      assert text[0..|query|] == text[..|query|];
      assert OccursAt(query, text, 0);
      true
    else if text == [] then false
    else
      var rest := ContainsIgnoringCase(text[1..], query);
      assert rest ==> OccursIgnoringCase(query, text) by {
        if rest {
          var i :| OccursAt(query, text[1..], i);
          assert text[1..][i..i + |query|] == text[i + 1..i + 1 + |query|];
          assert OccursAt(query, text, i + 1);
        }
      }
      assert OccursIgnoringCase(query, text) ==> rest by {
        if OccursIgnoringCase(query, text) {
          var i :| OccursAt(query, text, i);
          assert i != 0 by {
            if |query| <= |text| {
              assert text[0..|query|] == text[..|query|];
            }
          }
          assert text[1..][i - 1..i - 1 + |query|] == text[i..i + |query|];
          assert OccursAt(query, text[1..], i - 1);
        }
      }
      rest
  }

  /** The search predicate: the query occurs in the name or in the description. */
  predicate Matches(p: PresetService, query: string)
  {
    ContainsIgnoringCase(p.name, query) || ContainsIgnoringCase(p.description, query)
  }

  /** The empty query occurs in every text. */
  lemma EmptyQueryOccurs(text: string)
    ensures OccursIgnoringCase("", text)
  {
    assert OccursAt("", text, 0);
  }

  /** The search over any catalogue `services`. */
  function SearchIn(services: seq<PresetService>, query: string): (r: seq<PresetService>)
    ensures query == "" ==> r == services
    ensures IsSubsequence(r, services)
    ensures forall p ::
              multiset(r)[p] == (if OccursIgnoringCase(query, p.name) || OccursIgnoringCase(query, p.description)
                                 then multiset(services)[p] else 0)
    ensures forall p :: p in r <==> (p in services &&
      (OccursIgnoringCase(query, p.name) || OccursIgnoringCase(query, p.description)))
  {
    if query == "" then
      SubsequenceReflexive(services);
      forall p: PresetService ensures OccursIgnoringCase(query, p.name) {
        EmptyQueryOccurs(p.name);
      }
      services
    else
      var matching := (p: PresetService) => Matches(p, query);
      FilterIsSubsequence(matching, services);
      FilterMembers(matching, services);
      FilterCounts(matching, services);
      Filter(matching, services)
  }

  /**
   * `searchServices(query)`: the whole catalogue for an empty query, otherwise
   * the entries whose name or description contains the query up to case, in
   * catalogue order.
   */
  function SearchServices(query: string): (r: seq<PresetService>)
    ensures query == "" ==> r == AllServices()
    ensures IsSubsequence(r, AllServices())
    ensures forall p ::
              multiset(r)[p] == (if OccursIgnoringCase(query, p.name) || OccursIgnoringCase(query, p.description)
                                 then multiset(AllServices())[p] else 0)
    ensures forall p :: p in r <==> (p in AllServices() &&
      (OccursIgnoringCase(query, p.name) || OccursIgnoringCase(query, p.description)))
  {
    SearchIn(AllServices(), query)
  }

  /**
   * `toSubscription(nextPaymentDate:)`: a new active record from the entry's
   * defaults; `freshId` is the identifier the id-less initialiser generates.
   */
  function ToSubscription(p: PresetService, freshId: Uuid, nextPaymentDate: Date): (s: Subscription)
    ensures s.id == freshId && s.isActive
    ensures s.name == p.name && s.cost == p.defaultCost && s.currency == p.defaultCurrency
    ensures s.billingCycle == p.defaultBillingCycle && s.category == p.category
    ensures s.nextPaymentDate == nextPaymentDate && s.description == Some(p.description)
  {
    NewSubscription(freshId, p.name, p.defaultCost, p.defaultCurrency, p.defaultBillingCycle,
                    nextPaymentDate, p.category, Some(p.description))
  }

  /** Every entry is a monthly USD plan with a name and a positive price, so it converts to a valid record. */
  lemma CatalogueDefaults(freshId: Uuid, date: Date)
    ensures forall p :: p in AllServices() ==>
      && p.defaultCost > 0.0 && p.name != "" && p.defaultBillingCycle == Monthly
      && ParseCurrency(p.defaultCurrency) == Some(USD)
      && ToSubscription(p, freshId, date).Valid()
  {
    var all := AllServices();
    assert forall i :: 0 <= i < |all| ==>
      all[i].defaultCost > 0.0 && all[i].name != "" && all[i].defaultBillingCycle == Monthly
      && all[i].defaultCurrency == "USD";
    assert ParseCurrency("USD") == Some(USD);
  }

  /**
   * Strict alphabetical order of the case folds from position `k` on,
   * code point by code point; a proper prefix comes first.
   */
  predicate LessIgnoringCaseFrom(a: string, b: string, k: nat)
    decreases |a| - k
  {
    if k >= |a| then k < |b|
    else
      && k < |b|
      && (|| LowerChar(a[k]) < LowerChar(b[k])
          || (LowerChar(a[k]) == LowerChar(b[k]) && LessIgnoringCaseFrom(a, b, k + 1)))
  }

  /** The order the catalogue keeps its names in. */
  predicate LessIgnoringCase(a: string, b: string)
  {
    LessIgnoringCaseFrom(a, b, 0)
  }

  lemma {:induction false} LessIgnoringCaseTransitive(a: string, b: string, c: string, k: nat)
    requires LessIgnoringCaseFrom(a, b, k) && LessIgnoringCaseFrom(b, c, k)
    ensures LessIgnoringCaseFrom(a, c, k)
    decreases |a| - k
  {
    if k < |a| && LowerChar(a[k]) == LowerChar(b[k]) && LowerChar(b[k]) == LowerChar(c[k]) {
      LessIgnoringCaseTransitive(a, b, c, k + 1);
    }
  }

  lemma {:induction false} EqualIgnoringCaseNotLess(a: string, b: string, k: nat)
    requires EqualIgnoringCase(a, b)
    ensures !LessIgnoringCaseFrom(a, b, k)
    decreases |a| - k
  {
    if k < |a| {
      EqualIgnoringCaseNotLess(a, b, k + 1);
    }
  }

  /** Catalogue names 1 to 6, each before the next. */
  lemma CatalogueNamesOrdered1()
    ensures forall i :: 0 <= i < 5 ==>
      LessIgnoringCase(CatalogueEntry(i).name, CatalogueEntry(i + 1).name)
  {
    forall i | 0 <= i < 5
      ensures LessIgnoringCase(CatalogueEntry(i).name, CatalogueEntry(i + 1).name)
    {
      if i == 0 {
        assert LessIgnoringCase("Adobe Creative Cloud", "Amazon Prime Video");
      } else if i == 1 {
        assert LessIgnoringCase("Amazon Prime Video", "Apple Fitness+");
      } else if i == 2 {
        assert LessIgnoringCase("Apple Fitness+", "Apple Music");
      } else if i == 3 {
        assert LessIgnoringCase("Apple Music", "Canva Pro");
      } else {
        assert LessIgnoringCase("Canva Pro", "Coursera Plus");
      }
    }
  }

  /** Catalogue names 6 to 11, each before the next. */
  lemma CatalogueNamesOrdered2()
    ensures forall i :: 5 <= i < 10 ==>
      LessIgnoringCase(CatalogueEntry(i).name, CatalogueEntry(i + 1).name)
  {
    forall i | 5 <= i < 10
      ensures LessIgnoringCase(CatalogueEntry(i).name, CatalogueEntry(i + 1).name)
    {
      if i == 5 {
        assert LessIgnoringCase("Coursera Plus", "Disney+");
      } else if i == 6 {
        assert LessIgnoringCase("Disney+", "Dropbox Plus");
      } else if i == 7 {
        assert LessIgnoringCase("Dropbox Plus", "Figma Professional");
      } else if i == 8 {
        assert LessIgnoringCase("Figma Professional", "GitHub Pro");
      } else {
        assert LessIgnoringCase("GitHub Pro", "Google One");
      }
    }
  }

  /** Catalogue names 11 to 16, each before the next. */
  lemma CatalogueNamesOrdered3()
    ensures forall i :: 10 <= i < 15 ==>
      LessIgnoringCase(CatalogueEntry(i).name, CatalogueEntry(i + 1).name)
  {
    forall i | 10 <= i < 15
      ensures LessIgnoringCase(CatalogueEntry(i).name, CatalogueEntry(i + 1).name)
    {
      if i == 10 {
        assert LessIgnoringCase("Google One", "HBO Max");
      } else if i == 11 {
        assert LessIgnoringCase("HBO Max", "iCloud+");
      } else if i == 12 {
        assert LessIgnoringCase("iCloud+", "MasterClass");
      } else if i == 13 {
        assert LessIgnoringCase("MasterClass", "Microsoft 365");
      } else {
        assert LessIgnoringCase("Microsoft 365", "Netflix");
      }
    }
  }

  /** Catalogue names 16 to 21, each before the next. */
  lemma CatalogueNamesOrdered4()
    ensures forall i :: 15 <= i < 20 ==>
      LessIgnoringCase(CatalogueEntry(i).name, CatalogueEntry(i + 1).name)
  {
    forall i | 15 <= i < 20
      ensures LessIgnoringCase(CatalogueEntry(i).name, CatalogueEntry(i + 1).name)
    {
      if i == 15 {
        assert LessIgnoringCase("Netflix", "Notion Pro");
      } else if i == 16 {
        assert LessIgnoringCase("Notion Pro", "PlayStation Plus");
      } else if i == 17 {
        assert LessIgnoringCase("PlayStation Plus", "Spotify Premium");
      } else if i == 18 {
        assert LessIgnoringCase("Spotify Premium", "Xbox Game Pass Ultimate");
      } else {
        assert LessIgnoringCase("Xbox Game Pass Ultimate", "YouTube Music");
      }
    }
  }

  /** Each catalogue name comes strictly before the next one. */
  lemma CatalogueAdjacentNamesOrdered()
    ensures forall i :: 0 <= i < |AllServices()| - 1 ==>
      LessIgnoringCase(AllServices()[i].name, AllServices()[i + 1].name)
  {
    CatalogueNamesOrdered1();
    CatalogueNamesOrdered2();
    CatalogueNamesOrdered3();
    CatalogueNamesOrdered4();
  }

  /**
   * The catalogue is in case-insensitive alphabetical order with no name
   * twice, even up to case.
   */
  lemma {:induction false} CatalogueNamesSorted()
    ensures forall i, j :: 0 <= i < j < |AllServices()| ==>
      LessIgnoringCase(AllServices()[i].name, AllServices()[j].name)
    ensures forall i, j :: 0 <= i < j < |AllServices()| ==>
      !EqualIgnoringCase(AllServices()[i].name, AllServices()[j].name)
  {
    var all := AllServices();
    CatalogueAdjacentNamesOrdered();
    forall i, j | 0 <= i < j < |all| ensures LessIgnoringCase(all[i].name, all[j].name) {
      OrderedFromAdjacent(all, i, j);
    }
    forall i, j | 0 <= i < j < |all| ensures !EqualIgnoringCase(all[i].name, all[j].name) {
      if EqualIgnoringCase(all[i].name, all[j].name) {
        EqualIgnoringCaseNotLess(all[i].name, all[j].name, 0);
      }
    }
  }

  lemma {:induction false} OrderedFromAdjacent(all: seq<PresetService>, i: nat, j: nat)
    requires i < j < |all|
    requires forall k :: 0 <= k < |all| - 1 ==> LessIgnoringCase(all[k].name, all[k + 1].name)
    ensures LessIgnoringCase(all[i].name, all[j].name)
    decreases j - i
  {
    if i + 1 < j {
      OrderedFromAdjacent(all, i + 1, j);
      LessIgnoringCaseTransitive(all[i].name, all[i + 1].name, all[j].name, 0);
    }
  }
}
