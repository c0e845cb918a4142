/**
 * Categories and genres: a name of at most 256 characters and a slug of at most
 * 50 that is unique in its table. Each table is held keyed by slug, so a second
 * row with a taken slug cannot exist; creation reports it as a validation error,
 * as the serializer's uniqueness validator does.
 */
module Catalog {
  import opened Http

  const NameMaxLength: nat := 256
  const SlugMaxLength: nat := 50

  datatype Category = Category(name: string, slug: string)

  datatype Genre = Genre(name: string, slug: string) {
    /** `Genres.__str__`. */
    function ToString(): string {
      name
    }
  }

  /** A slug field's characters: ASCII letters, digits, hyphen and underscore. */
  predicate IsSlugChar(c: char) {
    ('a' <= c <= 'z') || ('A' <= c <= 'Z') || ('0' <= c <= '9') || c == '-' || c == '_'
  }

  predicate ValidSlug(slug: string) {
    0 < |slug| <= SlugMaxLength && forall i :: 0 <= i < |slug| ==> IsSlugChar(slug[i])
  }

  predicate ValidName(name: string) {
    0 < |name| <= NameMaxLength
  }

  /** The field checks a new category or genre goes through; `taken` holds the slugs
      already stored in its table. None means the entry is accepted. */
  function CheckEntry(name: string, slug: string, taken: set<string>): (r: Option<Error>)
    ensures r.None? <==> ValidName(name) && ValidSlug(slug) && slug !in taken
    ensures r.Some? ==> r.value.ValidationError?
    ensures ValidName(name) && slug in taken ==> r == Some(ValidationError("slug"))
  {
    if !ValidName(name) then Some(ValidationError("name"))
    else if !ValidSlug(slug) || slug in taken then Some(ValidationError("slug"))
    else None
  }

  /** The string form of a stored genre is its name, which is never empty nor longer
      than the column allows. */
  lemma GenreStringIsName(g: Genre)
    requires ValidName(g.name)
    ensures g.ToString() == g.name && 0 < |g.ToString()| <= NameMaxLength
  {
  }

  class Catalog {
    var categories: map<string, Category>
    var genres: map<string, Genre>

    ghost predicate Valid()
      reads this
    {
      && (forall s :: s in categories ==>
            categories[s].slug == s && ValidSlug(s) && ValidName(categories[s].name))
      && (forall s :: s in genres ==>
            genres[s].slug == s && ValidSlug(s) && ValidName(genres[s].name))
    }

    constructor ()
      ensures Valid() && categories == map[] && genres == map[]
    {
      categories := map[];
      genres := map[];
    }

    method CreateCategory(name: string, slug: string) returns (r: Result<Category>)
      requires Valid()
      modifies this
      ensures Valid() && genres == old(genres)
      ensures CheckEntry(name, slug, old(categories).Keys).Some? ==>
                r == Err(CheckEntry(name, slug, old(categories).Keys).value) && categories == old(categories)
      ensures CheckEntry(name, slug, old(categories).Keys).None? ==>
                r == Ok(Category(name, slug)) && categories == old(categories)[slug := Category(name, slug)]
    {
      var check := CheckEntry(name, slug, categories.Keys);
      if check.Some? {
        r := Err(check.value);
      } else {
        r := Ok(Category(name, slug));
        categories := categories[slug := r.value];
      }
    }

    method DeleteCategory(slug: string) returns (r: Result<Category>)
      requires Valid()
      modifies this
      ensures Valid() && genres == old(genres)
      ensures slug !in old(categories) ==> r == Err(NotFound) && categories == old(categories)
      ensures slug in old(categories) ==> r == Ok(old(categories)[slug]) && categories == old(categories) - {slug}
    {
      if slug in categories {
        r := Ok(categories[slug]);
        categories := categories - {slug};
      } else {
        r := Err(NotFound);
      }
    }

    method CreateGenre(name: string, slug: string) returns (r: Result<Genre>)
      requires Valid()
      modifies this
      ensures Valid() && categories == old(categories)
      ensures CheckEntry(name, slug, old(genres).Keys).Some? ==>
                r == Err(CheckEntry(name, slug, old(genres).Keys).value) && genres == old(genres)
      ensures CheckEntry(name, slug, old(genres).Keys).None? ==>
                r == Ok(Genre(name, slug)) && genres == old(genres)[slug := Genre(name, slug)]
    {
      var check := CheckEntry(name, slug, genres.Keys);
      if check.Some? {
        r := Err(check.value);
      } else {
        r := Ok(Genre(name, slug));
        genres := genres[slug := r.value];
      }
    }

    method DeleteGenre(slug: string) returns (r: Result<Genre>)
      requires Valid()
      modifies this
      ensures Valid() && categories == old(categories)
      ensures slug !in old(genres) ==> r == Err(NotFound) && genres == old(genres)
      ensures slug in old(genres) ==> r == Ok(old(genres)[slug]) && genres == old(genres) - {slug}
    {
      if slug in genres {
        r := Ok(genres[slug]);
        genres := genres - {slug};
      } else {
        r := Err(NotFound);
      }
    }
  }

  /** In a valid catalog no two categories and no two genres share a slug, and every
      stored slug and name is within its length limit. */
  lemma SlugsUnique(c: Catalog)
    requires c.Valid()
    ensures forall x, y :: x in c.categories.Values && y in c.categories.Values && x.slug == y.slug ==> x == y
    ensures forall x, y :: x in c.genres.Values && y in c.genres.Values && x.slug == y.slug ==> x == y
    ensures forall x :: x in c.categories.Values ==> |x.slug| <= SlugMaxLength && |x.name| <= NameMaxLength
    ensures forall x :: x in c.genres.Values ==> |x.slug| <= SlugMaxLength && |x.name| <= NameMaxLength
  {
  }
}
