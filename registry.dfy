/** The operation registry that `setup` builds at start-up from the files of
    the `wsapi/` directory: which file names become operations, the read-only
    filter, and the fatal check on a module's `args`. The directory listing is
    given as a sequence of (file name, loaded module) pairs. */
module Registry {
  import opened Common

  /** A module's `exports.args`: absent or falsy, an array of names, or a
      truthy value that is not an array. */
  datatype Args = Missing | Names(names: seq<string>) | NotArray

  /** What a handler module exports (its `process` function is external). */
  datatype Module = Module(httpMethod: string, authed: bool, writesDb: bool, args: Args)

  /** The `validate` middleware attached to a registered operation: one that
      always continues, or the argument check built from the names. */
  datatype Validator = Continue | Check(names: seq<string>)

  /** A registered operation. */
  datatype Api = Api(httpMethod: string, authed: bool, writesDb: bool, validator: Validator)

  type Listing = seq<(string, Module)>
  type Table = map<string, Api>

  const ArgsError := "exports.args must be an array of strings"

  /** A file that is loaded at all: longer than three characters, with a
      `.js` suffix, and not a dot-file. */
  predicate IsApiFile(f: string) {
    |f| > 3 && f[|f| - 3..] == ".js" && f[0] != '.'
  }

  /** The operation name: the file name without its `.js` suffix. */
  function OperationName(f: string): string
    requires |f| >= 3
  {
    f[..|f| - 3]
  }

  /** A listed file that gets past both filters of the loop. */
  predicate Kept(entry: (string, Module), onlyWriteApis: bool) {
    IsApiFile(entry.0) && (!onlyWriteApis || entry.1.writesDb)
  }

  function ValidatorOf(a: Args): Validator
    requires !a.NotArray?
  {
    match a
    case Missing => Continue
    case Names(ns) => Check(ns)
  }

  function ApiOf(m: Module): Api
    requires !m.args.NotArray?
  {
    Api(m.httpMethod, m.authed, m.writesDb, ValidatorOf(m.args))
  }

  function RegistrationError(operation: string): string {
    "error registering " + operation + " api: " + ArgsError
  }

  /** One turn of the loop over the listing. */
  function RegisterOne(t: Table, entry: (string, Module), onlyWriteApis: bool): Result<Table, string> {
    if !Kept(entry, onlyWriteApis) then Success(t)
    else if entry.1.args.NotArray? then Failure(RegistrationError(OperationName(entry.0)))
    else Success(t[OperationName(entry.0) := ApiOf(entry.1)])
  }

  /** The reference definition of the registry: the loop over the listing,
      stopped by the first registration error. */
  function Registry(l: Listing, onlyWriteApis: bool): Result<Table, string>
    decreases |l|
  {
    if l == [] then Success(map[])
    else
      match Registry(l[..|l| - 1], onlyWriteApis)
      case Failure(e) => Failure(e)
      case Success(t) => RegisterOne(t, l[|l| - 1], onlyWriteApis)
  }

  /** The registration loop of `setup`, which throws (here: returns a
      `Failure`) at the first module whose `args` is not an array. */
  method Setup(listing: Listing, onlyWriteApis: bool) returns (r: Result<Table, string>)
    ensures r == Registry(listing, onlyWriteApis)
  {
    var wsapis: Table := map[];
    for i := 0 to |listing|
      invariant Registry(listing[..i], onlyWriteApis) == Success(wsapis)
    {
      assert listing[..i + 1][..i] == listing[..i];
      var (f, api) := listing[i];
      if |f| <= 3 || f[|f| - 3..] != ".js" || f[..1] == "." {
        continue;
      }
      var operation := f[..|f| - 3];
      if onlyWriteApis && !api.writesDb {
        continue;
      }
      if api.args.NotArray? {
        FailureIsFinal(listing, i + 1, onlyWriteApis);
        return Failure("error registering " + operation + " api: " + ArgsError);
      }
      var validator := if api.args.Names? then Check(api.args.names) else Continue;
      wsapis := wsapis[operation := Api(api.httpMethod, api.authed, api.writesDb, validator)];
    }
    assert listing[..|listing|] == listing;
    r := Success(wsapis);
  }

  /** Once a prefix of the listing fails, the whole listing fails with the
      same message. */
  lemma {:induction false} FailureIsFinal(l: Listing, n: nat, onlyWriteApis: bool)
    requires n <= |l| && Registry(l[..n], onlyWriteApis).Failure?
    ensures Registry(l, onlyWriteApis) == Registry(l[..n], onlyWriteApis)
    decreases |l| - n
  {
    if n < |l| {
      assert l[..n + 1][..n] == l[..n];
      FailureIsFinal(l, n + 1, onlyWriteApis);
    } else {
      assert l[..n] == l;
    }
  }

  /** Registration fails exactly when some kept file's module declares `args`
      that is not an array, and the message names the first such operation. */
  lemma {:induction false} FailsIff(l: Listing, onlyWriteApis: bool)
    ensures Registry(l, onlyWriteApis).Failure? <==>
              exists i :: 0 <= i < |l| && Kept(l[i], onlyWriteApis) && l[i].1.args.NotArray?
    ensures Registry(l, onlyWriteApis).Failure? ==>
              exists i :: 0 <= i < |l| && Kept(l[i], onlyWriteApis) && l[i].1.args.NotArray?
                && Registry(l, onlyWriteApis).error == RegistrationError(OperationName(l[i].0))
                && forall j :: 0 <= j < i ==> !(Kept(l[j], onlyWriteApis) && l[j].1.args.NotArray?)
    decreases |l|
  {
    if l != [] {
      var p := l[..|l| - 1];
      FailsIff(p, onlyWriteApis);
      assert forall i :: 0 <= i < |p| ==> p[i] == l[i];
      if Registry(p, onlyWriteApis).Failure? {
        var i :| 0 <= i < |p| && Kept(p[i], onlyWriteApis) && p[i].1.args.NotArray?
                 && Registry(p, onlyWriteApis).error == RegistrationError(OperationName(p[i].0))
                 && forall j :: 0 <= j < i ==> !(Kept(p[j], onlyWriteApis) && p[j].1.args.NotArray?);
        assert l[i] == p[i];
      } else if Kept(l[|l| - 1], onlyWriteApis) && l[|l| - 1].1.args.NotArray? {
        assert Registry(l, onlyWriteApis).error == RegistrationError(OperationName(l[|l| - 1].0));
      }
    }
  }

  /** The listed entry provides operation `op`: it is kept and its file is
      named `op` plus `.js`. */
  predicate Provides(entry: (string, Module), onlyWriteApis: bool, op: string) {
    Kept(entry, onlyWriteApis) && OperationName(entry.0) == op
  }

  /** When registration succeeds, an operation is registered exactly when some
      kept file carries its name. */
  lemma {:induction false} RegisteredIff(l: Listing, onlyWriteApis: bool, op: string)
    requires Registry(l, onlyWriteApis).Success?
    ensures op in Registry(l, onlyWriteApis).value <==>
              exists i :: 0 <= i < |l| && Provides(l[i], onlyWriteApis, op)
    decreases |l|
  {
    if l != [] {
      var p := l[..|l| - 1];
      assert Registry(p, onlyWriteApis).Success?;
      RegisteredIff(p, onlyWriteApis, op);
      assert forall i :: 0 <= i < |p| ==> p[i] == l[i];
      if !Provides(l[|l| - 1], onlyWriteApis, op) && op in Registry(l, onlyWriteApis).value {
        var i :| 0 <= i < |p| && Provides(p[i], onlyWriteApis, op);
        assert Provides(l[i], onlyWriteApis, op);
      }
    }
  }

  /** A registered operation carries the module of the LAST kept file with its
      name: a later file of the same name overwrites an earlier one. */
  lemma {:induction false} RegisteredFromLastFile(l: Listing, onlyWriteApis: bool, op: string)
    requires Registry(l, onlyWriteApis).Success? && op in Registry(l, onlyWriteApis).value
    ensures exists i :: 0 <= i < |l| && Provides(l[i], onlyWriteApis, op)
              && !l[i].1.args.NotArray? && Registry(l, onlyWriteApis).value[op] == ApiOf(l[i].1)
              && forall j :: i < j < |l| ==> !Provides(l[j], onlyWriteApis, op)
    decreases |l|
  {
    var p := l[..|l| - 1];
    var last := l[|l| - 1];
    assert Registry(p, onlyWriteApis).Success?;
    if Provides(last, onlyWriteApis, op) {
      assert Registry(l, onlyWriteApis).value[op] == ApiOf(last.1);
    } else {
      var tp := Registry(p, onlyWriteApis).value;
      assert op in tp && Registry(l, onlyWriteApis).value[op] == tp[op];
      RegisteredFromLastFile(p, onlyWriteApis, op);
      var i :| 0 <= i < |p| && Provides(p[i], onlyWriteApis, op)
               && !p[i].1.args.NotArray? && tp[op] == ApiOf(p[i].1)
               && forall j :: i < j < |p| ==> !Provides(p[j], onlyWriteApis, op);
      assert forall j :: 0 <= j < |p| ==> p[j] == l[j];
      assert l[i] == p[i];
    }
  }

  /** In read-only-replica mode (`only_write_apis`) every registered operation
      writes to the database. */
  lemma OnlyWritersRegistered(l: Listing, op: string)
    requires Registry(l, true).Success? && op in Registry(l, true).value
    ensures Registry(l, true).value[op].writesDb
  {
    RegisteredFromLastFile(l, true, op);
  }

  /** With the read-only filter off, every API file is registered. */
  lemma AllFilesRegistered(l: Listing)
    requires Registry(l, false).Success?
    ensures forall i :: 0 <= i < |l| && IsApiFile(l[i].0) ==> OperationName(l[i].0) in Registry(l, false).value
  {
    forall i | 0 <= i < |l| && IsApiFile(l[i].0)
      ensures OperationName(l[i].0) in Registry(l, false).value
    {
      assert Provides(l[i], false, OperationName(l[i].0));
      RegisteredIff(l, false, OperationName(l[i].0));
    }
  }

  /** The file name filter in terms of the operation it yields: `f` is loaded
      exactly when it is some operation name plus `.js`, other than the bare
      `.js`, and does not start with a dot. */
  lemma ApiFileShape(f: string)
    ensures IsApiFile(f) <==> exists op :: op != "" && f == op + ".js" && op[0] != '.'
  {
    if IsApiFile(f) {
      var op := OperationName(f);
      assert f == op + ".js";
    }
  }
}
