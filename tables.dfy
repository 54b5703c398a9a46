/**
 * A keyed table as the repository layer sees it (`findOne`, `findAll`,
 * `save`, `delete` become map lookup, values, update and removal), and the
 * coherence relation between a table and the cache in front of it.
 */
module Tables {
  import opened Model

  /** `findOne(id)`: the row stored under `id`, or null. */
  function Find<V>(table: map<int, V>, id: int): (found: Option<V>)
    ensures found.Some? <==> id in table
    ensures found.Some? ==> found.value == table[id]
  {
    if id in table then Some(table[id]) else None
  }

  /**
   * Every cache entry, including a remembered null, is what a lookup in the
   * table would return now.
   */
  ghost predicate Coherent<V>(table: map<int, V>, cache: map<int, Option<V>>)
  {
    forall id :: id in cache ==> cache[id] == Find(table, id)
  }

  /** No two keys hold the same row. */
  ghost predicate Injective<V>(table: map<int, V>)
  {
    forall j, k :: j in table && k in table && table[j] == table[k] ==> j == k
  }

  /** A key under which a row of the table is stored. */
  lemma KeyOf<V>(table: map<int, V>, row: V) returns (id: int)
    requires row in table.Values
    ensures id in table && table[id] == row
  {
    if forall k :: k in table ==> table[k] != row {
      assert false;
    }
    id :| id in table && table[id] == row;
  }

  /** The rows of a table are the rows left after removing one key, plus that key's row. */
  lemma ValuesSplit<V>(table: map<int, V>, id: int)
    requires id in table
    ensures table.Values == (table - {id}).Values + {table[id]}
  {
    var rest := table - {id};
    forall v | v in table.Values ensures v in rest.Values + {table[id]} {
      var k := KeyOf(table, v);
      if k != id { assert k in rest; }
    }
    forall v | v in rest.Values ensures v in table.Values {
      var k := KeyOf(rest, v);
      assert table[k] == v;
    }
  }

  /**
   * When no two keys hold the same row, `findAll` returns as many rows as
   * the table has keys.
   */
  lemma {:induction false} DistinctValuesCount<V>(table: map<int, V>)
    requires Injective(table)
    ensures |table.Values| == |table|
    decreases |table|
  {
    if table.Values != {} {
      var row :| row in table.Values;
      var id := KeyOf(table, row);
      var rest := table - {id};
      assert rest.Keys == table.Keys - {id};
      DistinctValuesCount(rest);
      assert table[id] !in rest.Values by {
        if table[id] in rest.Values {
          var k := KeyOf(rest, table[id]);
        }
      }
      ValuesSplit(table, id);
    }
  }
}
