/** The cache configuration: templates loaded from the meta database, kept in
    one ordered list that is replaced on every reload. */
module Meta {
  import opened Basics
  import opened Tokens
  import Comments
  import Patterns

  /** What the model takes from libraries it does not look into: UTF-8
      decoding, case mapping, the SQL tokenizer (no tokens when it fails), which
      characters Debug formatting prints as themselves, the SQL parser (None
      when it fails) and the printer of parsed statements. */
  datatype Library = Library(
    utf8: Bytes -> Option<string>,
    upper: string -> string,
    tokenize: string -> seq<Token>,
    plain: char -> bool,
    parse: string -> Option<seq<Patterns.Statement>>,
    render: Patterns.Statement -> string)

  datatype Row = Row(id: int, sqlTemplate: string, duration: int)

  datatype CacheConfigEntity = CacheConfigEntity(id: int, sqlTemplate: string, duration: int, tokens: seq<Token>)

  function Normalised(lib: Library, row: Row): CacheConfigEntity {
    var template := Comments.Trim(lib.upper(row.sqlTemplate));
    CacheConfigEntity(row.id, template, row.duration, TrimTokens(lib.tokenize(template)))
  }

  /** The list a reload leaves: the new rows, normalised, in their order. */
  function Loaded(lib: Library, rows: seq<Row>): seq<CacheConfigEntity> {
    seq(|rows|, i requires 0 <= i < |rows| => Normalised(lib, rows[i]))
  }

  class CacheConfigList {
    var entities: seq<CacheConfigEntity>

    constructor ()
      ensures entities == []
    {
      entities := [];
    }

    /** Whatever the list held before is gone: there is one entity for each new
        row, in order, with the row's own id and duration, and with the tokens, but
        for blanks, of its upper-cased and trimmed template. */
    method Reload(lib: Library, rows: seq<Row>)
      modifies this
      ensures entities == Loaded(lib, rows) && |entities| == |rows|
      ensures forall i :: 0 <= i < |rows| ==>
                && entities[i].id == rows[i].id && entities[i].duration == rows[i].duration
                && entities[i].sqlTemplate == Comments.Trim(lib.upper(rows[i].sqlTemplate))
                && entities[i].tokens == TrimTokens(lib.tokenize(Comments.Trim(lib.upper(rows[i].sqlTemplate))))
    {
      entities := [];
      for i := 0 to |rows|
        invariant entities == Loaded(lib, rows[..i])
      {
        entities := entities + [Normalised(lib, rows[i])];
        assert rows[..i + 1] == rows[..i] + [rows[i]];
      }
      assert rows[..|rows|] == rows;
    }
  }

  predicate IsFirst(entities: seq<CacheConfigEntity>, tokens: seq<Token>, i: int) {
    && 0 <= i < |entities|
    && Matches(entities[i].tokens, tokens)
    && forall j :: 0 <= j < i ==> !Matches(entities[j].tokens, tokens)
  }

  /** The entity the request handler stops at. */
  function FirstMatch(entities: seq<CacheConfigEntity>, tokens: seq<Token>): (r: Option<CacheConfigEntity>)
    ensures r.None? ==> forall i :: 0 <= i < |entities| ==> !Matches(entities[i].tokens, tokens)
    ensures r.Some? ==> exists i :: IsFirst(entities, tokens, i) && entities[i] == r.value
  {
    if entities == [] then None
    else if Matches(entities[0].tokens, tokens) then Some(entities[0])
    else
      var r := FirstMatch(entities[1..], tokens);
      assert forall i :: IsFirst(entities[1..], tokens, i) ==> IsFirst(entities, tokens, i + 1);
      r
  }
}
