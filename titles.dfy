/**
 * Titles, as far as the core reads them: their primary key and their name, the
 * listing's `order_by('name')`, and which serializer a title action uses. The
 * title model itself (year, description, category, genres) is not part of this model.
 */
module Titles {
  import opened Sequences

  type TitleId = nat

  datatype Title = Title(id: TitleId, name: string)

  /** `get_object_or_404(Title, id=...)` finds a row. */
  predicate HasTitle(titles: seq<Title>, id: TitleId) {
    exists t :: t in titles && t.id == id
  }

  /** The titles left when the title `id` is deleted. */
  function TitlesWithout(titles: seq<Title>, id: TitleId): (r: seq<Title>)
    ensures forall t :: t in r <==> t in titles && t.id != id
  {
    Filter(titles, (t: Title) => t.id != id)
  }

  /** Code-point lexicographic order on names: `a` sorts no later than `b`. */
  predicate NameLeq(a: string, b: string)
    decreases |a|
  {
    |a| == 0 || (|b| > 0 && (a[0] < b[0] || (a[0] == b[0] && NameLeq(a[1..], b[1..]))))
  }

  lemma {:induction false} NameLeqTotal(a: string, b: string)
    ensures NameLeq(a, b) || NameLeq(b, a)
    decreases |a|
  {
    if |a| > 0 && |b| > 0 && a[0] == b[0] {
      NameLeqTotal(a[1..], b[1..]);
    }
  }

  lemma {:induction false} NameLeqTransitive(a: string, b: string, c: string)
    requires NameLeq(a, b) && NameLeq(b, c)
    ensures NameLeq(a, c)
    decreases |a|
  {
    if |a| > 0 && a[0] == b[0] && b[0] == c[0] {
      NameLeqTransitive(a[1..], b[1..], c[1..]);
    }
  }

  /** `a` may stand before `b` in a listing ordered by name. */
  function NameBefore(a: Title, b: Title): bool {
    NameLeq(a.name, b.name)
  }

  ghost predicate OrderedByName(s: seq<Title>) {
    Pairwise(s, NameBefore)
  }

  /** Puts `t` into a listing already ordered by name, before the first title whose name sorts after it. */
  function InsertByName(t: Title, s: seq<Title>): (r: seq<Title>)
    requires OrderedByName(s)
    ensures OrderedByName(r)
    ensures multiset(r) == multiset(s) + multiset{t}
    ensures forall x :: x in r ==> x == t || x in s
  {
    if s == [] then [t]
    else if NameLeq(t.name, s[0].name) then
      forall y | y in s ensures NameBefore(t, y) {
        var k :| 0 <= k < |s| && s[k] == y;
        if k > 0 {
          NameLeqTransitive(t.name, s[0].name, y.name);
        }
      }
      PrependKeepsPairwise(t, s, NameBefore);
      [t] + s
    else
      NameLeqTotal(t.name, s[0].name);
      var rest := InsertByName(t, s[1..]);
      forall x | x in s[1..] ensures NameBefore(s[0], x) {
        var k :| 0 <= k < |s[1..]| && s[1..][k] == x;
        assert x == s[k + 1];
      }
      PrependKeepsPairwise(s[0], rest, NameBefore);
      assert s == [s[0]] + s[1..];
      [s[0]] + rest
  }

  /** The title listing: the same titles, ordered by name. */
  function OrderByName(s: seq<Title>): (r: seq<Title>)
    ensures OrderedByName(r)
    ensures multiset(r) == multiset(s)
  {
    if s == [] then []
    else
      assert s == [s[0]] + s[1..];
      InsertByName(s[0], OrderByName(s[1..]))
  }

  /** The actions of the title viewset. */
  datatype TitleAction = List | Retrieve | Create | Update | PartialUpdate | Destroy

  /** FirstTitleSerializer renders category and genres as nested objects with the
      rating; SecondTitleSerializer takes them as slugs. */
  datatype TitleSerializer = FirstTitleSerializer | SecondTitleSerializer

  /** `TitleViewSet.get_serializer_class`. */
  function SerializerClassFor(action: TitleAction): TitleSerializer {
    if action == List || action == Retrieve then FirstTitleSerializer else SecondTitleSerializer
  }

  /** Reads are rendered nested, and every write takes flat slug references. */
  lemma ReadsNestedWritesFlat(action: TitleAction)
    ensures SerializerClassFor(action) == FirstTitleSerializer <==> action in {List, Retrieve}
    ensures action in {Create, Update, PartialUpdate, Destroy} ==> SerializerClassFor(action) == SecondTitleSerializer
  {
  }
}
