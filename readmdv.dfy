/**
 * The field selection of mdv/readmdv.py: each reader turns its `fields`
 * argument into the `exclude_fields` list it hands to pyart, and pyart
 * loads every field of the file that is not excluded.  The file itself
 * is a parameter: the map of the fields it holds.
 */
module ReadMdv {
  import opened Wrappers
  import opened PyBase
  import opened Radars

  /** The `fields` argument: None, one string (`'all'` or a field name), or a list of names. */
  datatype FieldsArg = FieldsNone | FieldsStr(s: string) | FieldsList(names: seq<string>)

  /** The names `radarPolar` knows. */
  const PolarNames: seq<string> := ["DBZ", "DBZ_F", "DBZVC", "DBZVC_F", "DBZHC", "DBZHC_F",
                                    "VEL", "VEL_F", "ZDR", "ZDR_F", "NCP", "NCP_F",
                                    "SNR", "SNR_F", "SNRHC", "SNRHC_F", "SNRVC", "SNRVC_F",
                                    "DBMHC", "DBMVC", "WIDTH", "WIDTH_F", "PHIDP", "PHIDP_F",
                                    "RHOHV", "RHOHV_F", "KDP", "KDP_F", "CMD_FLAG"]

  /** The names `radarPolarDerived` knows. */
  const DerivedNames: seq<string> := ["RATE_ZH", "RATE_Z_ZDR", "RATE_KDP", "RATE_KDP_ZDR",
                                      "RATE_HYBRID", "RATE_PID", "PID"]

  /** The names `radarCart` knows. */
  const CartNames: seq<string> := ["DBZ", "DBZ_F", "DBZHC_F", "DBZVC_F", "NCP", "CLUT", "VEL", "VEL_F"]

  /** `[x for x in known if x not in requested]`. */
  function NotRequested(known: seq<string>, requested: seq<string>): (r: seq<string>)
    ensures forall x :: x in r <==> x in known && x !in requested
    ensures |r| <= |known|
  {
    if known == [] then []
    else
      var rest := NotRequested(known[..|known| - 1], requested);
      assert forall x :: x in known <==> x in known[..|known| - 1] || x == known[|known| - 1] by {
        assert known == known[..|known| - 1] + [known[|known| - 1]];
      }
      if known[|known| - 1] in requested then rest else rest + [known[|known| - 1]]
  }

  /**
   * The exclusion list of a reader with known names `known`: `'all'`
   * excludes nothing (None), None excludes every known name, and a single
   * string is read as a one-element list.
   */
  function Exclusions(known: seq<string>, fields: FieldsArg): (r: Option<seq<string>>)
    ensures fields == FieldsStr("all") <==> r.None?
    ensures fields.FieldsNone? ==> r == Some(known)
    ensures fields.FieldsStr? && fields.s != "all" ==> r == Some(NotRequested(known, [fields.s]))
    ensures fields.FieldsList? ==> r == Some(NotRequested(known, fields.names))
  {
    match fields
    case FieldsNone => Some(known)
    case FieldsStr(s) => if s == "all" then None else Some(NotRequested(known, [s]))
    case FieldsList(l) => Some(NotRequested(known, l))
  }

  /** The excluded names keep the order of the known names. */
  lemma {:induction false} NotRequestedInOrder(known: seq<string>, requested: seq<string>, i: nat, j: nat)
    requires NoDuplicates(known)
    requires i < j < |NotRequested(known, requested)|
    ensures FirstIndex(known, NotRequested(known, requested)[i]) < FirstIndex(known, NotRequested(known, requested)[j])
    decreases |known|
  {
    var init := known[..|known| - 1];
    var last := known[|known| - 1];
    var rest := NotRequested(init, requested);
    assert known == init + [last];
    assert NoDuplicates(init) by {
      forall a, b | 0 <= a < b < |init| ensures init[a] != init[b] {
        assert init[a] == known[a] && init[b] == known[b];
      }
    }
    FirstIndexOfPrefix(init, last, rest, requested, i);
    if j < |rest| {
      NotRequestedInOrder(init, requested, i, j);
      FirstIndexOfPrefix(init, last, rest, requested, j);
    } else {
      assert NotRequested(known, requested)[j] == last;
      assert FirstIndex(known, last) == |known| - 1 by { FirstIndexOfLast(known); }
    }
  }

  /** A name of the prefix has the same first index in the whole sequence, before the last position. */
  lemma FirstIndexOfPrefix(init: seq<string>, last: string, rest: seq<string>, requested: seq<string>, i: nat)
    requires rest == NotRequested(init, requested) && i < |rest|
    ensures NotRequested(init + [last], requested)[i] == rest[i]
    ensures FirstIndex(init + [last], rest[i]) == FirstIndex(init, rest[i]) < |init|
  {
    assert (init + [last])[..|init|] == init;
    FirstIndexPrefix(init + [last], init, rest[i]);
  }

  lemma FirstIndexOfLast(s: seq<string>)
    requires |s| > 0 && NoDuplicates(s)
    ensures FirstIndex(s, s[|s| - 1]) == |s| - 1
  {
    var k := FirstIndex(s, s[|s| - 1]);
    assert s[k] == s[|s| - 1];
  }

  /** pyart's `exclude_fields`: every field of the file not excluded is loaded. */
  function Load(file: map<string, Field>, excl: Option<seq<string>>): (r: map<string, Field>)
    ensures r.Keys <= file.Keys
    ensures forall x :: x in r ==> r[x] == file[x]
    ensures forall x :: x in file ==> (x in r <==> excl.None? || x !in excl.value)
  {
    if excl.None? then file else map x | x in file && x !in excl.value :: file[x]
  }

  /**
   * `radarPolar(filename, fields)` on a file holding `file`: a requested
   * name is always loaded when the file has it, and so is any field of the
   * file the reader does not know, requested or not.
   */
  function RadarPolarFields(file: map<string, Field>, fields: FieldsArg): (r: map<string, Field>)
    ensures fields.FieldsList? ==> forall x :: x in file ==> (x in r <==> x in fields.names || x !in PolarNames)
    ensures fields == FieldsStr("all") ==> r == file
    ensures fields.FieldsNone? ==> forall x :: x in r <==> x in file && x !in PolarNames
    ensures r.Keys <= file.Keys
  {
    Load(file, Exclusions(PolarNames, fields))
  }

  /** `radarPolarDerived(filename, fields)`. */
  function RadarPolarDerivedFields(file: map<string, Field>, fields: FieldsArg): (r: map<string, Field>)
    ensures fields.FieldsList? ==> forall x :: x in file ==> (x in r <==> x in fields.names || x !in DerivedNames)
  {
    Load(file, Exclusions(DerivedNames, fields))
  }

  /** `radarCart(filename, fields)`. */
  function RadarCartFields(file: map<string, Field>, fields: FieldsArg): (r: map<string, Field>)
    ensures fields.FieldsList? ==> forall x :: x in file ==> (x in r <==> x in fields.names || x !in CartNames)
  {
    Load(file, Exclusions(CartNames, fields))
  }

  /**
   * `radarGrid(filename, fields)`: the known names are the file header's
   * own field names (`header`), so a list reads exactly the requested
   * fields that the header lists.
   */
  function RadarGridFields(file: map<string, Field>, header: seq<string>, fields: FieldsArg): (r: map<string, Field>)
    ensures (forall x :: x in file ==> x in header) && fields.FieldsList? ==>
      forall x :: x in r <==> x in file && x in fields.names
  {
    Load(file, Exclusions(header, fields))
  }

  /** A single name reads like the one-element list holding it. */
  lemma SingleNameIsList(known: seq<string>, s: string)
    requires s != "all"
    ensures Exclusions(known, FieldsStr(s)) == Exclusions(known, FieldsList([s]))
  {
  }

  /** Requested names the reader does not know change nothing. */
  lemma {:induction false} UnknownRequestsIgnored(known: seq<string>, requested: seq<string>, u: string)
    requires u !in known
    ensures NotRequested(known, requested + [u]) == NotRequested(known, requested)
    decreases |known|
  {
    if known != [] {
      UnknownRequestsIgnored(known[..|known| - 1], requested, u);
    }
  }

  /** A requested name is never excluded. */
  lemma RequestedNeverExcluded(known: seq<string>, requested: seq<string>, x: string)
    requires x in requested
    ensures x !in NotRequested(known, requested)
  {
  }
}
