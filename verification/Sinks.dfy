/** Which parameters of a module's functions reach readers, and at what nesting of rows. */
module Sinks {
  import opened Results

  /** An argument: a bare name, or anything else. */
  datatype Expr = Name(id: string) | Other(code: string)

  datatype Callee = Attribute(attr: string) | Plain(id: string) | Computed

  /** A keyword argument; a dictionary spread has no name. */
  datatype Keyword = Keyword(name: Option<string>, value: Expr)

  datatype Call = Call(callee: Callee, args: seq<Expr>, keywords: seq<Keyword>)

  /** A module function with every call its body holds, in the order they are walked. */
  datatype Function = Function(name: string, params: seq<string>, calls: seq<Call>)

  /** A module: its functions, and whether it lies in the services folder. */
  datatype Source = Source(functions: seq<Function>, services: bool)

  /** What readers get to see, and under how many levels of rows the text lies. */
  datatype Reader = Reader(arg: Expr, depth: nat)

  datatype Key = Index(i: nat) | Named(name: string)

  type Wrappers = map<string, map<Key, nat>>

  const COPY_FIELDS := {"subject", "body", "title"}
  const STORED_COPY := {"description", "interval_description", "product_name"}
  const SENDER_PARAMS := map[
    "Email" := ["to", "subject", "body", "html"],
    "Sms" := ["to", "body"],
    "Push" := ["tokens", "title", "body", "data"],
    "dispatch_message" := ["sms", "to", "body"]
  ]
  const CSV_ROWS := map["writerow" := 1, "writerows" := 2]

  // ---------------------------------------------------------------- the sinks of one call

  function CallName(call: Call): string {
    match call.callee
    case Attribute(attr) => attr
    case Plain(id) => id
    case Computed => ""
  }

  function Positional(args: seq<Expr>, params: seq<string>): set<Reader> {
    set i | 0 <= i < |args| && i < |params| && params[i] in COPY_FIELDS :: Reader(args[i], 0)
  }

  function ByKeyword(keywords: seq<Keyword>, names: set<string>): set<Reader> {
    set kw <- keywords | kw.name.Some? && kw.name.value in names :: Reader(kw.value, 0)
  }

  /** What a call hands to senders, spreadsheets and, in services, stored copy. */
  function BaseArgs(call: Call, services: bool): set<Reader> {
    var name := CallName(call);
    (if name in SENDER_PARAMS
     then Positional(call.args, SENDER_PARAMS[name]) + ByKeyword(call.keywords, COPY_FIELDS)
     else {})
    + (if name in CSV_ROWS && call.args != [] then {Reader(call.args[0], CSV_ROWS[name])} else {})
    + (if services then ByKeyword(call.keywords, STORED_COPY) else {})
  }

  function WrapperArgs(call: Call, entries: map<Key, nat>): set<Reader> {
    (set key <- entries | key.Index? && key.i < |call.args| :: Reader(call.args[key.i], entries[key]))
    + (set key <- entries, kw <- call.keywords | key.Named? && kw.name == Some(key.name) ::
         Reader(kw.value, entries[key]))
  }

  function Entries(w: Wrappers, name: string): map<Key, nat> { if name in w then w[name] else map[] }

  function SinkArgs(call: Call, services: bool, w: Wrappers): set<Reader> {
    BaseArgs(call, services) + WrapperArgs(call, Entries(w, CallName(call)))
  }

  /** Of a sender's positional arguments only the copy is read: never whom it goes to, nor its data. */
  lemma SendersReadCopy(call: Call)
    requires call.keywords == []
    ensures CallName(call) == "Email" && |call.args| >= 4 ==>
              BaseArgs(call, false) == {Reader(call.args[1], 0), Reader(call.args[2], 0)}
    ensures CallName(call) == "Sms" && |call.args| >= 2 ==> BaseArgs(call, false) == {Reader(call.args[1], 0)}
    ensures CallName(call) == "Push" && |call.args| >= 4 ==>
              BaseArgs(call, false) == {Reader(call.args[1], 0), Reader(call.args[2], 0)}
    ensures CallName(call) == "dispatch_message" && |call.args| >= 3 ==> BaseArgs(call, false) == {Reader(call.args[2], 0)}
  {
  }

  /** Which positions of which senders are copy. */
  ghost predicate IsCopyAt(name: string, i: nat) {
    (name == "Email" && (i == 1 || i == 2)) || (name == "Sms" && i == 1) || (name == "Push" && (i == 1 || i == 2))
    || (name == "dispatch_message" && i == 2)
  }

  /** A keyword is copy for any sender by these names, and stored copy anywhere in services by those. */
  ghost predicate IsCopyBy(name: string, services: bool, keyword: string) {
    (name in {"Email", "Sms", "Push", "dispatch_message"} && keyword in {"subject", "body", "title"})
    || (services && keyword in {"description", "interval_description", "product_name"})
  }

  lemma PositionalCopy(call: Call, r: Reader)
    requires CallName(call) in SENDER_PARAMS
    ensures r in Positional(call.args, SENDER_PARAMS[CallName(call)])
       <==> exists i: nat :: i < |call.args| && IsCopyAt(CallName(call), i) && r == Reader(call.args[i], 0)
  {
    var name := CallName(call);
    var params := SENDER_PARAMS[name];
    forall i: nat
      ensures i < |params| && params[i] in COPY_FIELDS <==> IsCopyAt(name, i)
    {
    }
  }

  /** What a call hands to base sinks, exactly: copy by position or keyword, stored copy in services, and rows. */
  lemma BaseArgsAre(call: Call, services: bool, r: Reader)
    ensures r in BaseArgs(call, services) <==>
            (exists i: nat :: i < |call.args| && IsCopyAt(CallName(call), i) && r == Reader(call.args[i], 0))
            || (exists kw <- call.keywords ::
                  kw.name.Some? && IsCopyBy(CallName(call), services, kw.name.value) && r == Reader(kw.value, 0))
            || (call.args != [] && CallName(call) == "writerow" && r == Reader(call.args[0], 1))
            || (call.args != [] && CallName(call) == "writerows" && r == Reader(call.args[0], 2))
  {
    var name := CallName(call);
    if name in SENDER_PARAMS {
      PositionalCopy(call, r);
    }
    hide Positional;
    assert name in SENDER_PARAMS <==> name in {"Email", "Sms", "Push", "dispatch_message"};
    assert forall i: nat :: IsCopyAt(name, i) ==> name in SENDER_PARAMS;
    forall kw | kw in call.keywords && kw.name.Some? && r == Reader(kw.value, 0)
      ensures IsCopyBy(name, services, kw.name.value) ==> r in BaseArgs(call, services)
    {
      if name in SENDER_PARAMS && kw.name.value in COPY_FIELDS {
        assert r in ByKeyword(call.keywords, COPY_FIELDS);
      }
      if services && kw.name.value in STORED_COPY {
        assert r in ByKeyword(call.keywords, STORED_COPY);
      }
    }
  }

  // ---------------------------------------------------------------- reaching a sink

  ghost predicate Distinct(names: seq<string>) { forall i, j :: 0 <= i < j < |names| ==> names[i] != names[j] }

  /** As the language has it: a function's parameters differ. */
  ghost predicate WellFormed(src: Source) { forall fn <- src.functions :: Distinct(fn.params) }

  /** Functions of one name take the same parameter at every position that both have. */
  ghost predicate ParamsAgree(src: Source) {
    forall fn <- src.functions, gn <- src.functions, i: nat ::
      fn.name == gn.name && i < |fn.params| && i < |gn.params| ==> fn.params[i] == gn.params[i]
  }

  /** The function takes this parameter there. */
  ghost predicate Takes(src: Source, name: string, i: nat, param: string) {
    exists fn <- src.functions :: fn.name == name && i < |fn.params| && fn.params[i] == param
  }

  ghost predicate TakesAt(src: Source, name: string, i: nat) {
    exists fn <- src.functions :: fn.name == name && i < |fn.params|
  }

  ghost predicate HasKeyword(call: Call, param: string, x: Expr) {
    Keyword(Some(param), x) in call.keywords
  }

  /** The call hands the expression to its callee's parameter, by position or by keyword. */
  ghost predicate Hands(src: Source, call: Call, x: Expr, j: nat) {
    && TakesAt(src, CallName(call), j)
    && ((j < |call.args| && call.args[j] == x)
        || exists param :: Takes(src, CallName(call), j, param) && HasKeyword(call, param, x))
  }

  /** A chain of at most n calls within the module takes the parameter to a base sink at this depth. */
  ghost predicate ReachesIn(src: Source, n: nat, name: string, i: nat, depth: nat)
    decreases n, 1
  {
    exists fn <- src.functions, call <- fn.calls ::
      fn.name == name && i < |fn.params| && CallReaches(src, n, call, Name(fn.params[i]), depth)
  }

  ghost predicate CallReaches(src: Source, n: nat, call: Call, x: Expr, depth: nat)
    decreases n, 0
  {
    || Reader(x, depth) in BaseArgs(call, src.services)
    || (n > 0 && exists j: nat :: Hands(src, call, x, j) && ReachesIn(src, n - 1, CallName(call), j, depth))
  }

  ghost predicate Reaches(src: Source, name: string, i: nat, depth: nat) {
    exists n: nat :: ReachesIn(src, n, name, i, depth)
  }

  ghost predicate UniqueDepths(src: Source) {
    forall name, i, d, e :: Reaches(src, name, i, d) && Reaches(src, name, i, e) ==> d == e
  }

  // ---------------------------------------------------------------- what the wrappers record

  ghost predicate Recorded(w: Wrappers, name: string, i: nat, depth: nat) {
    name in w && Index(i) in w[name] && w[name][Index(i)] == depth
  }

  ghost predicate PairedAt(src: Source, w: Wrappers, name: string, key: Key)
    requires name in w && key in w[name]
  {
    match key
    case Index(i) =>
      TakesAt(src, name, i)
      && forall p :: Takes(src, name, i, p) ==> Named(p) in w[name] && w[name][Named(p)] == w[name][key]
    case Named(p) => exists i: nat :: Takes(src, name, i, p) && Recorded(w, name, i, w[name][key])
  }

  /** Every position is of a function, and its keyword says the same depth; no other keyword is there. */
  ghost predicate Paired(src: Source, w: Wrappers) {
    forall name <- w, key <- w[name] :: PairedAt(src, w, name, key)
  }

  /** Only what reaches is recorded, by position, */
  ghost predicate Sound(src: Source, w: Wrappers) {
    forall name, i, d :: Recorded(w, name, i, d) ==> Reaches(src, name, i, d)
  }

  /** and by name. */
  ghost predicate SoundNames(src: Source, w: Wrappers) {
    forall name <- w, key <- w[name] :: key.Named? ==> NameReaches(src, name, key.name, w[name][key])
  }

  ghost predicate NameReaches(src: Source, name: string, param: string, depth: nat) {
    exists i: nat :: Takes(src, name, i, param) && Reaches(src, name, i, depth)
  }

  /** The parameter an argument names is recorded at this depth, if it names one. */
  ghost predicate Noted(w: Wrappers, fn: Function, r: Reader) {
    forall i :: 0 <= i < |fn.params| && r.arg == Name(fn.params[i]) ==> Recorded(w, fn.name, i, r.depth)
  }

  ghost predicate CallNoted(src: Source, w: Wrappers, fn: Function, call: Call) {
    forall r <- SinkArgs(call, src.services, w) :: Noted(w, fn, r)
  }

  ghost predicate FunctionNoted(src: Source, w: Wrappers, fn: Function) {
    forall call <- fn.calls :: CallNoted(src, w, fn, call)
  }

  /** A pass over the functions would change nothing. */
  ghost predicate Stable(src: Source, w: Wrappers) {
    forall fn <- src.functions :: FunctionNoted(src, w, fn)
  }

  // ---------------------------------------------------------------- sink arguments are chains

  /** Through the wrappers, a call hands on exactly what its callee has recorded. */
  lemma WrapperArgsHand(src: Source, w: Wrappers, call: Call, r: Reader)
    requires Paired(src, w)
    ensures r in WrapperArgs(call, Entries(w, CallName(call))) <==>
            exists j: nat :: Hands(src, call, r.arg, j) && Recorded(w, CallName(call), j, r.depth)
  {
    if r in WrapperArgs(call, Entries(w, CallName(call))) {
      WrapperArgHandsOn(src, w, call, r);
    }
    if j: nat :| Hands(src, call, r.arg, j) && Recorded(w, CallName(call), j, r.depth) {
      if j < |call.args| && call.args[j] == r.arg {
        assert Index(j) in Entries(w, CallName(call));
      } else {
        var p :| Takes(src, CallName(call), j, p) && HasKeyword(call, p, r.arg);
        assert Named(p) in Entries(w, CallName(call));
      }
    }
  }

  lemma WrapperArgHandsOn(src: Source, w: Wrappers, call: Call, r: Reader)
    requires Paired(src, w) && r in WrapperArgs(call, Entries(w, CallName(call)))
    ensures exists j: nat :: Hands(src, call, r.arg, j) && Recorded(w, CallName(call), j, r.depth)
  {
    var name := CallName(call);
    var entries := Entries(w, name);
    var key :| key in entries && entries[key] == r.depth
            && match key
               case Index(i) => i < |call.args| && call.args[i] == r.arg
               case Named(p) => HasKeyword(call, p, r.arg);
    match key
    case Index(i) => assert Hands(src, call, r.arg, i) && Recorded(w, name, i, r.depth);
    case Named(p) =>
      var j: nat :| Takes(src, name, j, p) && Recorded(w, name, j, r.depth);
      assert Hands(src, call, r.arg, j);
  }

  /** The last call of a chain. */
  lemma LastCall(src: Source, n: nat, name: string, i: nat, depth: nat) returns (fn: Function, call: Call)
    requires ReachesIn(src, n, name, i, depth)
    ensures fn in src.functions && call in fn.calls && fn.name == name && i < |fn.params|
    ensures CallReaches(src, n, call, Name(fn.params[i]), depth)
  {
    hide CallReaches;
    fn, call :| fn in src.functions && call in fn.calls
             && fn.name == name && i < |fn.params| && CallReaches(src, n, call, Name(fn.params[i]), depth);
  }

  lemma {:induction false} ReachesLonger(src: Source, n: nat, m: nat, name: string, i: nat, depth: nat)
    requires ReachesIn(src, n, name, i, depth) && n <= m
    ensures ReachesIn(src, m, name, i, depth)
    decreases n
  {
    hide BaseArgs, Hands;
    var fn, call := LastCall(src, n, name, i, depth);
    if Reader(Name(fn.params[i]), depth) !in BaseArgs(call, src.services) {
      var j: nat :| Hands(src, call, Name(fn.params[i]), j) && ReachesIn(src, n - 1, CallName(call), j, depth);
      ReachesLonger(src, n - 1, m - 1, CallName(call), j, depth);
    }
    assert CallReaches(src, m, call, Name(fn.params[i]), depth);
  }

  /** What a call hands on through the wrappers, it hands to a parameter that reaches. */
  lemma WrapperArgReaches(src: Source, w: Wrappers, call: Call, r: Reader)
    requires Sound(src, w) && SoundNames(src, w) && r in WrapperArgs(call, Entries(w, CallName(call)))
    ensures exists j: nat :: Hands(src, call, r.arg, j) && Reaches(src, CallName(call), j, r.depth)
  {
    var name := CallName(call);
    var entries := Entries(w, name);
    var key :| key in entries && entries[key] == r.depth
            && match key
               case Index(i) => i < |call.args| && call.args[i] == r.arg
               case Named(p) => HasKeyword(call, p, r.arg);
    match key
    case Index(i) =>
      assert Recorded(w, name, i, r.depth);
      ReachesTakes(src, name, i, r.depth);
      assert Hands(src, call, r.arg, i);
    case Named(p) =>
      assert NameReaches(src, name, p, r.depth);
      var j: nat :| Takes(src, name, j, p) && Reaches(src, name, j, r.depth);
      assert Hands(src, call, r.arg, j);
  }

  lemma ReachesTakes(src: Source, name: string, i: nat, depth: nat)
    requires Reaches(src, name, i, depth)
    ensures TakesAt(src, name, i)
  {
    var n: nat :| ReachesIn(src, n, name, i, depth);
    var fn, call := LastCall(src, n, name, i, depth);
  }

  /** What a call hands to a sink reaches one, if all that is recorded does. */
  lemma SinkArgReaches(src: Source, w: Wrappers, fn: Function, call: Call, i: nat, depth: nat)
    requires Sound(src, w) && SoundNames(src, w)
    requires fn in src.functions && call in fn.calls && i < |fn.params|
    requires Reader(Name(fn.params[i]), depth) in SinkArgs(call, src.services, w)
    ensures Reaches(src, fn.name, i, depth)
  {
    var x := Name(fn.params[i]);
    if Reader(x, depth) in BaseArgs(call, src.services) {
      assert CallReaches(src, 0, call, x, depth);
      assert ReachesIn(src, 0, fn.name, i, depth);
    } else {
      WrapperArgReaches(src, w, call, Reader(x, depth));
      var j: nat :| Hands(src, call, x, j) && Reaches(src, CallName(call), j, depth);
      var n: nat :| ReachesIn(src, n, CallName(call), j, depth);
      assert CallReaches(src, n + 1, call, x, depth);
      assert ReachesIn(src, n + 1, fn.name, i, depth);
    }
  }

  /** Wrappers that a pass would not change hold everything that reaches. */
  lemma {:induction false} StableHoldsAll(src: Source, w: Wrappers, n: nat, name: string, i: nat, depth: nat)
    requires Paired(src, w) && Stable(src, w)
    requires ReachesIn(src, n, name, i, depth)
    ensures Recorded(w, name, i, depth)
    decreases n
  {
    hide BaseArgs, WrapperArgs, Entries, Hands, Paired, Recorded;
    var fn, call := LastCall(src, n, name, i, depth);
    var r := Reader(Name(fn.params[i]), depth);
    if r !in BaseArgs(call, src.services) {
      var j: nat :| Hands(src, call, r.arg, j) && ReachesIn(src, n - 1, CallName(call), j, depth);
      StableHoldsAll(src, w, n - 1, CallName(call), j, depth);
      WrapperArgsHand(src, w, call, r);
    }
    assert FunctionNoted(src, w, fn) && CallNoted(src, w, fn, call) && Noted(w, fn, r);
  }

  /** The loop can only end when every parameter reaches sinks at one depth. */
  lemma StableOnlyWithUniqueDepths(src: Source, w: Wrappers)
    requires Paired(src, w) && Stable(src, w)
    ensures UniqueDepths(src)
  {
    forall name, i, d, e | Reaches(src, name, i, d) && Reaches(src, name, i, e)
      ensures d == e
    {
      var n: nat :| ReachesIn(src, n, name, i, d);
      var m: nat :| ReachesIn(src, m, name, i, e);
      StableHoldsAll(src, w, n, name, i, d);
      StableHoldsAll(src, w, m, name, i, e);
    }
  }

  /** Some parameter is handed to base sinks of two depths, by its function or by others of that name. */
  ghost predicate BaseDepthsDiffer(src: Source) {
    exists name, i, d, e :: d != e && ReachesIn(src, 0, name, i, d) && ReachesIn(src, 0, name, i, e)
  }

  /** Stable wrappers hold what reaches by its function's own calls. */
  lemma StableHoldsBase(src: Source, w: Wrappers, name: string, i: nat, depth: nat)
    requires Stable(src, w) && ReachesIn(src, 0, name, i, depth)
    ensures Recorded(w, name, i, depth)
  {
    hide BaseArgs, WrapperArgs, Recorded;
    var fn, call := LastCall(src, 0, name, i, depth);
    assert FunctionNoted(src, w, fn) && CallNoted(src, w, fn, call);
    assert Noted(w, fn, Reader(Name(fn.params[i]), depth));
  }

  /** Then no pass is the last, whatever is recorded and whatever functions share a name. */
  lemma BaseDepthsNeverStable(src: Source, w: Wrappers)
    requires BaseDepthsDiffer(src)
    ensures !Stable(src, w)
  {
    hide Stable, ReachesIn;
    var name, i, d, e :| d != e && ReachesIn(src, 0, name, i, d) && ReachesIn(src, 0, name, i, e);
    if Stable(src, w) {
      StableHoldsBase(src, w, name, i, d);
      StableHoldsBase(src, w, name, i, e);
      assert false;
    }
  }

  /** A parameter handed to both row writers has two depths, so no pass over such a module is the last. */
  lemma TwoRowWritersDisagree(src: Source, fn: Function, i: nat, one: Call, many: Call)
    requires fn in src.functions && i < |fn.params| && one in fn.calls && many in fn.calls
    requires CallName(one) == "writerow" && one.args != [] && one.args[0] == Name(fn.params[i])
    requires CallName(many) == "writerows" && many.args != [] && many.args[0] == Name(fn.params[i])
    ensures Reaches(src, fn.name, i, 1) && Reaches(src, fn.name, i, 2) && !UniqueDepths(src) && BaseDepthsDiffer(src)
    ensures forall w :: !Stable(src, w)
  {
    assert CallReaches(src, 0, one, Name(fn.params[i]), 1);
    assert CallReaches(src, 0, many, Name(fn.params[i]), 2);
    assert ReachesIn(src, 0, fn.name, i, 1) && ReachesIn(src, 0, fn.name, i, 2);
    var d: nat, e: nat := 1, 2;
    assert Reaches(src, fn.name, i, d) && Reaches(src, fn.name, i, e);
    hide ReachesIn, Stable;
    forall w
      ensures !Stable(src, w)
    {
      BaseDepthsNeverStable(src, w);
    }
  }

  // ---------------------------------------------------------------- the loop

  function AllSlots(src: Source): set<(string, nat)> {
    set fn <- src.functions, i | 0 <= i < |fn.params| :: (fn.name, i)
  }

  function RecordedSlots(src: Source, w: Wrappers): set<(string, nat)> {
    set s <- AllSlots(src) | s.0 in w && Index(s.1) in w[s.0]
  }

  /** The parameter's entries, at its position and under its name. */
  function Record(w: Wrappers, name: string, i: nat, param: string, depth: nat): Wrappers {
    w[name := Entries(w, name)[Index(i) := depth][Named(param) := depth]]
  }

  /** Recording a parameter changes that one alone. */
  lemma RecordSetsOne(w: Wrappers, name: string, i: nat, param: string, depth: nat, other: string, j: nat, e: nat)
    ensures Recorded(Record(w, name, i, param, depth), other, j, e)
       <==> if other == name && j == i then e == depth else Recorded(w, other, j, e)
  {
  }

  /** A name and a position tell each other. */
  lemma TakesOnce(src: Source, name: string, i: nat, p: string, j: nat, q: string)
    requires WellFormed(src) && ParamsAgree(src) && Takes(src, name, i, p) && Takes(src, name, j, q)
    ensures i == j <==> p == q
  {
    var fn :| fn in src.functions && fn.name == name && i < |fn.params| && fn.params[i] == p;
    var gn :| gn in src.functions && gn.name == name && j < |gn.params| && gn.params[j] == q;
    assert Distinct(fn.params) && Distinct(gn.params);
    assert i <= j ==> gn.params[i] == p;
    assert j <= i ==> fn.params[j] == q;
  }

  lemma RecordKeepsPaired(src: Source, w: Wrappers, name: string, i: nat, p: string, depth: nat)
    requires WellFormed(src) && ParamsAgree(src) && Paired(src, w) && Takes(src, name, i, p)
    ensures Paired(src, Record(w, name, i, p, depth))
  {
    hide WellFormed, ParamsAgree, Recorded, Takes, TakesAt;
    var v := Record(w, name, i, p, depth);
    forall other, key | other in v && key in v[other]
      ensures PairedAt(src, v, other, key)
    {
      if other != name {
        KeepsPairedElsewhere(src, w, v, other, key);
      } else {
        match key
        case Index(j) => KeepsPairedPosition(src, w, name, i, p, depth, j);
        case Named(q) => KeepsPairedName(src, w, name, i, p, depth, q);
      }
    }
  }

  lemma KeepsPairedElsewhere(src: Source, w: Wrappers, v: Wrappers, name: string, key: Key)
    requires name in w && name in v && w[name] == v[name] && key in v[name] && PairedAt(src, w, name, key)
    ensures PairedAt(src, v, name, key)
  {
    hide Takes, TakesAt;
    if key.Named? {
      var i: nat :| Takes(src, name, i, key.name) && Recorded(w, name, i, w[name][key]);
      assert Recorded(v, name, i, v[name][key]);
    }
  }

  lemma KeepsPairedPosition(src: Source, w: Wrappers, name: string, i: nat, p: string, depth: nat, j: nat)
    requires WellFormed(src) && ParamsAgree(src) && Paired(src, w) && Takes(src, name, i, p)
    requires Index(j) in Record(w, name, i, p, depth)[name]
    ensures PairedAt(src, Record(w, name, i, p, depth), name, Index(j))
  {
    var v := Record(w, name, i, p, depth);
    if j != i {
      assert PairedAt(src, w, name, Index(j));
    }
    hide WellFormed, ParamsAgree, TakesAt;
    assert TakesAt(src, name, j) by {
      TakesThere(src, name, i, p);
    }
    forall q | Takes(src, name, j, q)
      ensures Named(q) in v[name] && v[name][Named(q)] == v[name][Index(j)]
    {
      TakesOnce(src, name, i, p, j, q);
    }
  }

  lemma TakesThere(src: Source, name: string, i: nat, p: string)
    requires Takes(src, name, i, p)
    ensures TakesAt(src, name, i)
  {
  }

  lemma KeepsPairedName(src: Source, w: Wrappers, name: string, i: nat, p: string, depth: nat, q: string)
    requires WellFormed(src) && ParamsAgree(src) && Paired(src, w) && Takes(src, name, i, p)
    requires Named(q) in Record(w, name, i, p, depth)[name]
    ensures PairedAt(src, Record(w, name, i, p, depth), name, Named(q))
  {
    hide WellFormed, ParamsAgree, Takes;
    var v := Record(w, name, i, p, depth);
    if q == p {
      assert Recorded(v, name, i, v[name][Named(q)]);
    } else {
      assert PairedAt(src, w, name, Named(q));
      var j: nat :| Takes(src, name, j, q) && Recorded(w, name, j, w[name][Named(q)]);
      TakesOnce(src, name, i, p, j, q);
      assert Recorded(v, name, j, v[name][Named(q)]);
    }
  }

  function NamesIn(entries: map<Key, nat>): set<string> { set key <- entries | key.Named? :: key.name }

  function PlacesIn(entries: map<Key, nat>): set<nat> { set key <- entries | key.Index? :: key.i }

  /** No function has more names recorded than positions. */
  ghost predicate OneNameEach(w: Wrappers) { forall name <- w :: |NamesIn(w[name])| <= |PlacesIn(w[name])| }

  /** What every state of the loop keeps. */
  ghost predicate Good(src: Source, w: Wrappers) {
    && Sound(src, w)
    && SoundNames(src, w)
    && (ParamsAgree(src) ==> Paired(src, w))
    && (UniqueDepths(src) ==> OneNameEach(w))
  }

  /** A stretch of the loop: unchanged without a change, and, with unique depths, recording more with one. */
  ghost predicate Advances(src: Source, before: Wrappers, after: Wrappers, changed: bool) {
    && (!changed ==> after == before)
    && (UniqueDepths(src) ==>
          && RecordedSlots(src, before) <= RecordedSlots(src, after)
          && (changed ==> RecordedSlots(src, before) < RecordedSlots(src, after)))
  }

  lemma RecordedReaches(src: Source, w: Wrappers, name: string, i: nat)
    requires Sound(src, w) && name in w && Index(i) in w[name]
    ensures Reaches(src, name, i, w[name][Index(i)])
  {
    hide Reaches;
    assert Recorded(w, name, i, w[name][Index(i)]);
  }

  /** With unique depths, what reaches at a depth that is not recorded is not recorded at all. */
  lemma NotRecordedYet(src: Source, w: Wrappers, name: string, i: nat, depth: nat)
    requires UniqueDepths(src) && Sound(src, w) && Reaches(src, name, i, depth) && !Recorded(w, name, i, depth)
    ensures !(name in w && Index(i) in w[name])
  {
    hide Reaches, Sound;
    if name in w && Index(i) in w[name] {
      RecordedReaches(src, w, name, i);
    }
  }

  lemma RecordKeepsSound(src: Source, w: Wrappers, name: string, i: nat, p: string, depth: nat)
    requires Sound(src, w) && SoundNames(src, w) && Takes(src, name, i, p) && Reaches(src, name, i, depth)
    ensures Sound(src, Record(w, name, i, p, depth)) && SoundNames(src, Record(w, name, i, p, depth))
  {
    hide Takes, Reaches;
    var v := Record(w, name, i, p, depth);
    forall other, j, e | Recorded(v, other, j, e)
      ensures Reaches(src, other, j, e)
    {
      RecordSetsOne(w, name, i, p, depth, other, j, e);
    }
    assert NameReaches(src, name, p, depth);
    hide NameReaches;
    forall other, key: Key | other in v && key in v[other] && key.Named?
      ensures NameReaches(src, other, key.name, v[other][key])
    {
      if other != name || key.name != p {
        assert other in w && key in w[other] && v[other][key] == w[other][key];
      }
    }
  }

  lemma NamesGrow(entries: map<Key, nat>, key: Key, depth: nat)
    ensures NamesIn(entries[key := depth]) == NamesIn(entries) + if key.Named? then {key.name} else {}
    ensures PlacesIn(entries[key := depth]) == PlacesIn(entries) + if key.Index? then {key.i} else {}
  {
    forall p
      ensures p in NamesIn(entries[key := depth]) <==> p in NamesIn(entries) || key == Named(p)
    {
      NamesAre(entries, p);
      NamesAre(entries[key := depth], p);
    }
    forall i: nat
      ensures i in PlacesIn(entries[key := depth]) <==> i in PlacesIn(entries) || key == Index(i)
    {
      PlacesAre(entries, i);
      PlacesAre(entries[key := depth], i);
    }
  }

  lemma NamesAre(entries: map<Key, nat>, p: string)
    ensures p in NamesIn(entries) <==> Named(p) in entries
  {
    if Named(p) in entries {
      assert Named(p).name in NamesIn(entries);
    }
  }

  lemma PlacesAre(entries: map<Key, nat>, i: nat)
    ensures i in PlacesIn(entries) <==> Index(i) in entries
  {
    if Index(i) in entries {
      assert Index(i).i in PlacesIn(entries);
    }
  }

  lemma RecordKeepsOneName(w: Wrappers, name: string, i: nat, p: string, depth: nat)
    requires OneNameEach(w) && !(name in w && Index(i) in w[name])
    ensures OneNameEach(Record(w, name, i, p, depth))
  {
    var v, entries := Record(w, name, i, p, depth), Entries(w, name);
    assert |NamesIn(entries)| <= |PlacesIn(entries)|;
    NamesGrow(entries, Index(i), depth);
    NamesGrow(entries[Index(i) := depth], Named(p), depth);
    PlacesAre(entries, i);
    hide NamesIn, PlacesIn;
    assert forall other <- v :: other != name ==> other in w && v[other] == w[other];
    assert |NamesIn(entries) + {p}| <= |NamesIn(entries)| + 1;
  }

  lemma RecordAdvances(src: Source, w: Wrappers, fn: Function, i: nat, depth: nat)
    requires WellFormed(src) && Good(src, w) && fn in src.functions && i < |fn.params|
    requires Reaches(src, fn.name, i, depth) && !Recorded(w, fn.name, i, depth)
    ensures Good(src, Record(w, fn.name, i, fn.params[i], depth))
    ensures Advances(src, w, Record(w, fn.name, i, fn.params[i], depth), true)
  {
    hide Reaches, Sound, SoundNames, Paired, OneNameEach, UniqueDepths, ParamsAgree, WellFormed;
    var v := Record(w, fn.name, i, fn.params[i], depth);
    assert Takes(src, fn.name, i, fn.params[i]);
    RecordKeepsSound(src, w, fn.name, i, fn.params[i], depth);
    if ParamsAgree(src) {
      RecordKeepsPaired(src, w, fn.name, i, fn.params[i], depth);
    }
    if UniqueDepths(src) {
      NotRecordedYet(src, w, fn.name, i, depth);
      RecordKeepsOneName(w, fn.name, i, fn.params[i], depth);
      assert (fn.name, i) in AllSlots(src);
      assert (fn.name, i) in RecordedSlots(src, v) && (fn.name, i) !in RecordedSlots(src, w);
    }
  }

  function IndexOf(names: seq<string>, name: string): (i: nat)
    requires name in names
    ensures i < |names| && names[i] == name && name !in names[..i]
  {
    if names[0] == name then 0 else 1 + IndexOf(names[1..], name)
  }

  /** One call of a function: its sink arguments that name a parameter are recorded. */
  method VisitCall(src: Source, fn: Function, call: Call, before: Wrappers) returns (w: Wrappers, changed: bool)
    requires WellFormed(src) && Good(src, before) && fn in src.functions && call in fn.calls
    ensures Good(src, w) && Advances(src, before, w, changed)
    ensures !changed ==> CallNoted(src, before, fn, call)
  {
    hide *;
    w, changed := before, false;
    var args := SinkArgs(call, src.services, before);
    var todo := args;
    assert Advances(src, before, w, changed) by { AdvancesNot(src, w); }
    while todo != {}
      invariant todo <= args && Good(src, w) && Advances(src, before, w, changed)
      invariant !changed ==> forall r <- args - todo :: Noted(before, fn, r)
      decreases |todo|
    {
      var r :| r in todo;
      todo := todo - {r};
      if r.arg.Name? && r.arg.id in fn.params {
        var i := IndexOf(fn.params, r.arg.id);
        var entries := Entries(w, fn.name);
        if !(Index(i) in entries && entries[Index(i)] == r.depth) {
          GoodReaches(src, before, fn, call, i, r.depth);
          NotRecorded(w, fn.name, i, r.depth);
          RecordAdvances(src, w, fn, i, r.depth);
          AdvancesOn(src, before, w, Record(w, fn.name, i, fn.params[i], r.depth), changed, true);
          w := Record(w, fn.name, i, r.arg.id, r.depth);
          changed := true;
        } else if !changed {
          SameWithoutChange(src, before, w);
          NotedThere(src, before, fn, r, i);
        }
      } else {
        NotedElsewhere(before, fn, r);
      }
    }
    if !changed {
      AllNoted(src, before, fn, call);
    }
  }

  lemma AdvancesNot(src: Source, w: Wrappers)
    ensures Advances(src, w, w, false)
  {
  }

  lemma AdvancesOn(src: Source, a: Wrappers, b: Wrappers, c: Wrappers, ab: bool, bc: bool)
    requires Advances(src, a, b, ab) && Advances(src, b, c, bc)
    ensures Advances(src, a, c, ab || bc)
  {
  }

  lemma GoodReaches(src: Source, w: Wrappers, fn: Function, call: Call, i: nat, depth: nat)
    requires Good(src, w) && fn in src.functions && call in fn.calls && i < |fn.params|
    requires Reader(Name(fn.params[i]), depth) in SinkArgs(call, src.services, w)
    ensures Reaches(src, fn.name, i, depth)
  {
    SinkArgReaches(src, w, fn, call, i, depth);
  }

  lemma NotRecorded(w: Wrappers, name: string, i: nat, depth: nat)
    ensures Recorded(w, name, i, depth) <==> Index(i) in Entries(w, name) && Entries(w, name)[Index(i)] == depth
  {
  }

  lemma NotedThere(src: Source, w: Wrappers, fn: Function, r: Reader, i: nat)
    requires WellFormed(src) && fn in src.functions && i < |fn.params| && r.arg == Name(fn.params[i])
    requires Index(i) in Entries(w, fn.name) && Entries(w, fn.name)[Index(i)] == r.depth
    ensures Noted(w, fn, r)
  {
    assert Distinct(fn.params);
  }

  lemma NotedElsewhere(w: Wrappers, fn: Function, r: Reader)
    requires !(r.arg.Name? && r.arg.id in fn.params)
    ensures Noted(w, fn, r)
  {
  }

  lemma AllNoted(src: Source, w: Wrappers, fn: Function, call: Call)
    requires forall r <- SinkArgs(call, src.services, w) :: Noted(w, fn, r)
    ensures CallNoted(src, w, fn, call)
  {
  }

  /**
   * One round over every call of every function. It reports a change unless nothing would; with two depths for one
   * parameter at base sinks it always does, and if functions of one name agree on their parameters with two depths at
   * any.
   */
  method Pass(src: Source, before: Wrappers) returns (w: Wrappers, changed: bool)
    requires WellFormed(src) && Good(src, before)
    ensures Good(src, w) && Advances(src, before, w, changed)
    ensures !changed ==> Stable(src, before)
    ensures BaseDepthsDiffer(src) || (ParamsAgree(src) && !UniqueDepths(src)) ==> changed
  {
    hide CallNoted, Good, Advances, UniqueDepths, BaseDepthsDiffer, Paired, ParamsAgree, WellFormed;
    w, changed := before, false;
    AdvancesNot(src, w);
    for f := 0 to |src.functions|
      invariant Good(src, w) && Advances(src, before, w, changed)
      invariant !changed ==> w == before && forall k :: 0 <= k < f ==> FunctionNoted(src, before, src.functions[k])
    {
      var fn := src.functions[f];
      for c := 0 to |fn.calls|
        invariant Good(src, w) && Advances(src, before, w, changed)
        invariant !changed ==> w == before && forall k :: 0 <= k < f ==> FunctionNoted(src, before, src.functions[k])
        invariant !changed ==> forall k :: 0 <= k < c ==> CallNoted(src, before, fn, fn.calls[k])
      {
        var after, visited := VisitCall(src, fn, fn.calls[c], w);
        AdvancesOn(src, before, w, after, changed, visited);
        w, changed := after, changed || visited;
        if !changed {
          SameWithoutChange(src, before, w);
        }
      }
    }
    if !changed {
      assert Stable(src, before);
      if BaseDepthsDiffer(src) {
        BaseDepthsNeverStable(src, before);
      }
      if ParamsAgree(src) {
        GoodParts(src, before);
        StableOnlyWithUniqueDepths(src, before);
      }
    }
  }

  lemma SameWithoutChange(src: Source, before: Wrappers, after: Wrappers)
    requires Advances(src, before, after, false)
    ensures after == before
  {
  }

  lemma GoodParts(src: Source, w: Wrappers)
    requires Good(src, w)
    ensures Sound(src, w) && SoundNames(src, w) && (ParamsAgree(src) ==> Paired(src, w))
    ensures UniqueDepths(src) ==> OneNameEach(w)
  {
  }

  lemma NothingIsGood(src: Source)
    ensures Good(src, map[])
  {
  }

  /** The parameter is recorded under its name at this depth. */
  ghost predicate RecordedName(w: Wrappers, name: string, param: string, depth: nat) {
    name in w && Named(param) in w[name] && w[name][Named(param)] == depth
  }

  /** The wrappers are exactly the parameters that reach a sink, each at its depth, by position and under every name. */
  ghost predicate Exact(src: Source, w: Wrappers) {
    && (forall name, i, depth :: Recorded(w, name, i, depth) <==> Reaches(src, name, i, depth))
    && (forall name, param, depth :: RecordedName(w, name, param, depth) <==> NameReaches(src, name, param, depth))
  }

  /** What the loop may end with: a state that it keeps and a pass would not change. */
  ghost predicate Outcome(src: Source, w: Wrappers) { Good(src, w) && Stable(src, w) }

  /**
   * Only parameters that reach a sink, by position and by name, until nothing would change; and if functions of one
   * name agree on the parameters that they share, exactly those.
   */
  method WrappersOf(src: Source) returns (w: Wrappers)
    requires WellFormed(src) && UniqueDepths(src)
    ensures Outcome(src, w) && Sound(src, w) && SoundNames(src, w) && OneNameEach(w)
    ensures ParamsAgree(src) ==> Paired(src, w) && Exact(src, w)
  {
    hide Good, Advances, Stable, OneNameEach, Paired, Reaches, ReachesIn, Recorded, Sound, SoundNames, UniqueDepths, ParamsAgree;
    w := map[];
    NothingIsGood(src);
    var changed := true;
    while changed
      invariant Good(src, w) && (!changed ==> Stable(src, w))
      decreases |AllSlots(src) - RecordedSlots(src, w)|, changed
    {
      var after: Wrappers;
      after, changed := Pass(src, w);
      FewerLeft(src, w, after, changed);
      w := after;
    }
    GoodParts(src, w);
    if ParamsAgree(src) {
      HoldsExactly(src, w);
    }
  }

  lemma FewerLeft(src: Source, before: Wrappers, after: Wrappers, changed: bool)
    requires UniqueDepths(src) && Advances(src, before, after, changed)
    ensures !changed ==> before == after
    ensures changed ==>
              |AllSlots(src) - RecordedSlots(src, after)| < |AllSlots(src) - RecordedSlots(src, before)|
  {
    hide UniqueDepths;
    Subset(AllSlots(src) - RecordedSlots(src, after), AllSlots(src) - RecordedSlots(src, before));
    assert RecordedSlots(src, after) <= AllSlots(src);
  }

  /** Stable wrappers that record only what reaches record exactly that. */
  lemma HoldsExactly(src: Source, w: Wrappers)
    requires Sound(src, w) && SoundNames(src, w) && Paired(src, w) && Stable(src, w)
    ensures Exact(src, w)
  {
    hide Paired, Stable, ReachesIn, Recorded;
    forall name, i, depth | Reaches(src, name, i, depth)
      ensures Recorded(w, name, i, depth)
    {
      var n: nat :| ReachesIn(src, n, name, i, depth);
      StableHoldsAll(src, w, n, name, i, depth);
    }
    hide Reaches, Takes;
    forall name, param, depth | NameReaches(src, name, param, depth)
      ensures RecordedName(w, name, param, depth)
    {
      var i: nat :| Takes(src, name, i, param) && Reaches(src, name, i, depth);
      PairedName(src, w, name, i, param, depth);
    }
  }

  lemma PairedName(src: Source, w: Wrappers, name: string, i: nat, param: string, depth: nat)
    requires Paired(src, w) && Recorded(w, name, i, depth) && Takes(src, name, i, param)
    ensures RecordedName(w, name, param, depth)
  {
    assert PairedAt(src, w, name, Index(i));
  }

  lemma {:induction false} Subset<T>(a: set<T>, b: set<T>)
    requires a <= b
    ensures |a| <= |b| && (a != b ==> |a| < |b|)
  {
    if a != {} {
      var x :| x in a;
      Subset(a - {x}, b - {x});
    }
  }

  // ---------------------------------------------------------------- functions of one name

  /** The modules have the same functions, up to what their bodies do. */
  ghost predicate SameSignatures(a: Source, b: Source) {
    |a.functions| == |b.functions|
    && forall k :: 0 <= k < |a.functions| ==>
         a.functions[k].name == b.functions[k].name && a.functions[k].params == b.functions[k].params
  }

  /** Two functions of one name take different parameters at one position. */
  ghost predicate DifferAt(src: Source, k: nat, l: nat, i: nat) {
    k < |src.functions| && l < |src.functions| && src.functions[k].name == src.functions[l].name
    && i < |src.functions[k].params| && i < |src.functions[l].params|
    && src.functions[k].params[i] != src.functions[l].params[i]
  }

  /** A call that writes a parameter as a row. */
  function RowOf(param: string): Call { Call(Attribute("writerow"), [Name(param)], []) }

  /** The same functions, of which one writes one parameter as a row and the others do nothing. */
  function Writing(src: Source, k: nat, i: nat): Source
    requires k < |src.functions| && i < |src.functions[k].params|
  {
    var fn := src.functions[k];
    Source(
      seq(|src.functions|, m requires 0 <= m < |src.functions| =>
            src.functions[m].(calls := if m == k then [RowOf(fn.params[i])] else [])),
      false)
  }

  lemma WritingParts(src: Source, k: nat, i: nat)
    requires WellFormed(src) && k < |src.functions| && i < |src.functions[k].params|
    ensures SameSignatures(src, Writing(src, k, i)) && WellFormed(Writing(src, k, i)) && !Writing(src, k, i).services
    ensures forall fn <- Writing(src, k, i).functions ::
              fn.calls != [] ==> fn.name == src.functions[k].name && fn.params == src.functions[k].params
                                 && fn.calls == [RowOf(fn.params[i])]
    ensures Writing(src, k, i).functions[k].calls == [RowOf(src.functions[k].params[i])]
    ensures BaseArgs(RowOf(src.functions[k].params[i]), false) == {Reader(Name(src.functions[k].params[i]), 1)}
  {
    var out := Writing(src, k, i);
    forall fn | fn in out.functions
      ensures Distinct(fn.params)
      ensures fn.calls != [] ==> fn.name == src.functions[k].name && fn.params == src.functions[k].params
                                 && fn.calls == [RowOf(fn.params[i])]
    {
      var m :| 0 <= m < |src.functions| && out.functions[m] == fn;
      assert src.functions[m] in src.functions;
    }
  }

  /** Only that parameter reaches a sink, at depth one. */
  lemma {:induction false} WritingReaches(src: Source, k: nat, i: nat, n: nat, name: string, j: nat, depth: nat)
    requires WellFormed(src) && k < |src.functions| && i < |src.functions[k].params|
    requires ReachesIn(Writing(src, k, i), n, name, j, depth)
    ensures name == src.functions[k].name && j == i && depth == 1
    decreases n
  {
    hide ReachesIn, Writing, BaseArgs;
    var out := Writing(src, k, i);
    WritingParts(src, k, i);
    var fn, call := LastCall(out, n, name, j, depth);
    assert fn.calls != [] && call == RowOf(fn.params[i]);
    if Reader(Name(fn.params[j]), depth) !in BaseArgs(call, out.services) {
      var m: nat :| Hands(out, call, Name(fn.params[j]), m) && ReachesIn(out, n - 1, CallName(call), m, depth);
      WritingReaches(src, k, i, n - 1, CallName(call), m, depth);
      assert false;
    }
    assert Distinct(fn.params) && fn.params[j] == fn.params[i];
  }

  lemma WritingDoesReach(src: Source, k: nat, i: nat)
    requires WellFormed(src) && k < |src.functions| && i < |src.functions[k].params|
    ensures Reaches(Writing(src, k, i), src.functions[k].name, i, 1) && UniqueDepths(Writing(src, k, i))
  {
    hide Writing, BaseArgs;
    var out := Writing(src, k, i);
    WritingParts(src, k, i);
    var fn := out.functions[k];
    assert fn in out.functions && fn.calls[0] in fn.calls;
    assert CallReaches(out, 0, fn.calls[0], Name(fn.params[i]), 1);
    assert ReachesIn(out, 0, fn.name, i, 1);
    hide ReachesIn;
    forall name, j, d, e | Reaches(out, name, j, d) && Reaches(out, name, j, e)
      ensures d == e
    {
      var n: nat :| ReachesIn(out, n, name, j, d);
      var m: nat :| ReachesIn(out, m, name, j, e);
      WritingReaches(src, k, i, n, name, j, d);
      WritingReaches(src, k, i, m, name, j, e);
    }
  }

  /** Both names reach, and no state of the loop has both. */
  lemma OneNameIsMissed(src: Source, k: nat, l: nat, i: nat, w: Wrappers)
    requires WellFormed(src) && DifferAt(src, k, l, i) && Good(Writing(src, k, i), w)
    ensures var name, p, q := src.functions[k].name, src.functions[k].params[i], src.functions[l].params[i];
            NameReaches(Writing(src, k, i), name, p, 1) && NameReaches(Writing(src, k, i), name, q, 1)
            && (Named(p) !in Entries(w, name) || Named(q) !in Entries(w, name))
  {
    var out, name := Writing(src, k, i), src.functions[k].name;
    var p, q := src.functions[k].params[i], src.functions[l].params[i];
    WritingParts(src, k, i);
    WritingDoesReach(src, k, i);
    assert out.functions[k] in out.functions && out.functions[l] in out.functions;
    assert Takes(out, name, i, p) && Takes(out, name, i, q);
    GoodParts(out, w);
    hide Writing, Reaches, UniqueDepths, Takes, Good, Sound, SoundNames, NamesIn, PlacesIn;
    OneNameRecorded(src, k, i, w, p, q);
  }

  lemma OneNameRecorded(src: Source, k: nat, i: nat, w: Wrappers, p: string, q: string)
    requires WellFormed(src) && k < |src.functions| && i < |src.functions[k].params| && p != q
    requires Sound(Writing(src, k, i), w) && OneNameEach(w)
    ensures Named(p) !in Entries(w, src.functions[k].name) || Named(q) !in Entries(w, src.functions[k].name)
  {
    hide Writing, Reaches, Sound, NamesIn, PlacesIn;
    var out, name := Writing(src, k, i), src.functions[k].name;
    var entries := Entries(w, name);
    forall j | j in PlacesIn(entries)
      ensures j == i
    {
      PlacesAre(entries, j);
      RecordedReaches(out, w, name, j);
      OnlyThatReaches(src, k, i, name, j, w[name][Index(j)]);
    }
    NamesAre(entries, p);
    NamesAre(entries, q);
    Subset(PlacesIn(entries), {i});
    if Named(p) in entries && Named(q) in entries {
      Subset({p, q}, NamesIn(entries));
      assert false;
    }
  }

  lemma OnlyThatReaches(src: Source, k: nat, i: nat, name: string, j: nat, depth: nat)
    requires WellFormed(src) && k < |src.functions| && i < |src.functions[k].params|
    requires Reaches(Writing(src, k, i), name, j, depth)
    ensures name == src.functions[k].name && j == i && depth == 1
  {
    hide ReachesIn, Writing;
    var n: nat :| ReachesIn(Writing(src, k, i), n, name, j, depth);
    WritingReaches(src, k, i, n, name, j, depth);
  }

  /** The loop ends on such a module. */
  lemma WritingHasOutcome(src: Source, k: nat, l: nat, i: nat) returns (w: Wrappers)
    requires WellFormed(src) && DifferAt(src, k, l, i)
    ensures Outcome(Writing(src, k, i), w)
  {
    var out, name, p := Writing(src, k, i), src.functions[k].name, src.functions[k].params[i];
    w := Record(map[], name, i, p, 1);
    assert w == map[name := map[Index(i) := 1, Named(p) := 1]];
    WritingDoesReach(src, k, i);
    assert out.functions[k] in out.functions && out.functions[l] in out.functions;
    assert Takes(out, name, i, p);
    assert !ParamsAgree(out);
    hide Writing, Reaches, Recorded, OneNameEach, ParamsAgree, Takes, Sound, SoundNames, Record, Stable;
    NothingIsSound(out);
    RecordKeepsSound(out, map[], name, i, p, 1);
    RecordKeepsOneName(map[], name, i, p, 1);
    WritingStable(src, k, i, w);
  }

  lemma NothingIsSound(src: Source)
    ensures Sound(src, map[]) && SoundNames(src, map[]) && OneNameEach(map[])
  {
  }

  lemma WritingStable(src: Source, k: nat, i: nat, w: Wrappers)
    requires WellFormed(src) && k < |src.functions| && i < |src.functions[k].params|
    requires w == map[src.functions[k].name := map[Index(i) := 1, Named(src.functions[k].params[i]) := 1]]
    ensures Stable(Writing(src, k, i), w)
  {
    hide Writing, BaseArgs, FunctionNoted;
    WritingParts(src, k, i);
    forall fn | fn in Writing(src, k, i).functions
      ensures FunctionNoted(Writing(src, k, i), w, fn)
    {
      if fn.calls == [] {
        NothingNoted(Writing(src, k, i), w, fn);
      } else {
        RowNoted(Writing(src, k, i), w, fn, i);
      }
    }
  }

  lemma NothingNoted(src: Source, w: Wrappers, fn: Function)
    requires fn.calls == []
    ensures FunctionNoted(src, w, fn)
  {
  }

  lemma RowNoted(src: Source, w: Wrappers, fn: Function, i: nat)
    requires Distinct(fn.params) && i < |fn.params| && fn.calls == [RowOf(fn.params[i])] && !src.services
    requires w == map[fn.name := map[Index(i) := 1, Named(fn.params[i]) := 1]]
    ensures FunctionNoted(src, w, fn)
  {
    var call := RowOf(fn.params[i]);
    forall r | r in SinkArgs(call, false, w)
      ensures r == Reader(Name(fn.params[i]), 1)
    {
      assert BaseArgs(call, false) == {Reader(Name(fn.params[i]), 1)};
    }
    assert Noted(w, fn, Reader(Name(fn.params[i]), 1));
  }

  /**
   * By the names and parameters of the functions alone: whatever their bodies do, with one depth for each parameter, all
   * that the loop may end with is exact, exactly when functions of one name agree on the parameters that they share.
   */
  lemma ExactForAllBodiesIff(table: Source)
    requires WellFormed(table)
    ensures (forall src, w :: SameSignatures(table, src) && UniqueDepths(src) && Outcome(src, w) ==> Exact(src, w))
       <==> ParamsAgree(table)
  {
    hide Outcome, UniqueDepths, Exact, Writing;
    if ParamsAgree(table) {
      forall src, w | SameSignatures(table, src) && UniqueDepths(src) && Outcome(src, w)
        ensures Exact(src, w)
      {
        SameParamsAgree(table, src);
        AgreeingIsExact(src, w);
      }
    } else {
      var k, l, i := ParamsDiffer(table);
      var w := WritingHasOutcome(table, k, l, i);
      WritingParts(table, k, i);
      WritingDoesReach(table, k, i);
      NeverExact(table, k, l, i, w);
    }
  }

  lemma SameParamsAgree(table: Source, src: Source)
    requires SameSignatures(table, src) && ParamsAgree(table)
    ensures ParamsAgree(src)
  {
    forall fn, gn, i: nat | fn in src.functions && gn in src.functions && fn.name == gn.name
                            && i < |fn.params| && i < |gn.params|
      ensures fn.params[i] == gn.params[i]
    {
      var k :| 0 <= k < |src.functions| && src.functions[k] == fn;
      var l :| 0 <= l < |src.functions| && src.functions[l] == gn;
      assert table.functions[k] in table.functions && table.functions[l] in table.functions;
    }
  }

  lemma AgreeingIsExact(src: Source, w: Wrappers)
    requires ParamsAgree(src) && Outcome(src, w)
    ensures Exact(src, w)
  {
    hide Sound, SoundNames, Paired, Stable, Exact, ParamsAgree;
    GoodParts(src, w);
    HoldsExactly(src, w);
  }

  lemma ParamsDiffer(table: Source) returns (k: nat, l: nat, i: nat)
    requires !ParamsAgree(table)
    ensures DifferAt(table, k, l, i)
  {
    var fn, gn, at: nat :| fn in table.functions && gn in table.functions && fn.name == gn.name
                        && at < |fn.params| && at < |gn.params| && fn.params[at] != gn.params[at];
    k :| k < |table.functions| && table.functions[k] == fn;
    l :| l < |table.functions| && table.functions[l] == gn;
    i := at;
  }

  lemma ExactNames(src: Source, w: Wrappers, name: string, param: string, depth: nat)
    requires Exact(src, w) && NameReaches(src, name, param, depth)
    ensures Named(param) in Entries(w, name)
  {
    assert RecordedName(w, name, param, depth);
  }

  /** Nothing that the loop keeps is exact for a module that writes a parameter on which functions of its name differ. */
  lemma NeverExact(src: Source, k: nat, l: nat, i: nat, w: Wrappers)
    requires WellFormed(src) && DifferAt(src, k, l, i) && Outcome(Writing(src, k, i), w)
    ensures !Exact(Writing(src, k, i), w)
  {
    hide Writing, Good, Exact, NameReaches;
    OneNameIsMissed(src, k, l, i, w);
    if Exact(Writing(src, k, i), w) {
      ExactNames(Writing(src, k, i), w, src.functions[k].name, src.functions[k].params[i], 1);
      ExactNames(Writing(src, k, i), w, src.functions[k].name, src.functions[l].params[i], 1);
      assert false;
    }
  }

  /** A call that passes x to a function by keyword. */
  function ByName(name: string, param: string): Call { Call(Plain(name), [], [Keyword(Some(param), Name("x"))]) }

  lemma NotReported(call: Call, w: Wrappers, name: string, param: string)
    requires call == ByName(name, param) && Named(param) !in Entries(w, name)
    ensures forall r <- SinkArgs(call, false, w) :: r.depth == 0
  {
  }

  lemma BothNamesHand(src: Source, k: nat, l: nat, i: nat)
    requires WellFormed(src) && DifferAt(src, k, l, i)
    ensures Hands(Writing(src, k, i), ByName(src.functions[k].name, src.functions[k].params[i]), Name("x"), i)
    ensures Hands(Writing(src, k, i), ByName(src.functions[k].name, src.functions[l].params[i]), Name("x"), i)
  {
    var out, name := Writing(src, k, i), src.functions[k].name;
    assert out.functions[k] in out.functions && out.functions[l] in out.functions;
    forall param | param in {src.functions[k].params[i], src.functions[l].params[i]}
      ensures Hands(out, ByName(name, param), Name("x"), i)
    {
      assert Takes(out, name, i, param) && HasKeyword(ByName(name, param), param, Name("x"));
    }
  }

  /** Run on such a module, the loop leaves a call by keyword unreported that hands its argument to a sink of rows. */
  method RenamedParameterIsMissed(src: Source, k: nat, l: nat, i: nat) returns (w: Wrappers, missed: Call)
    requires WellFormed(src) && DifferAt(src, k, l, i)
    ensures var out := Writing(src, k, i);
            && Outcome(out, w) && Hands(out, missed, Name("x"), i) && Reaches(out, CallName(missed), i, 1)
            && Reader(Name("x"), 1) !in SinkArgs(missed, out.services, w)
  {
    WritingParts(src, k, i);
    WritingDoesReach(src, k, i);
    BothNamesHand(src, k, l, i);
    var name, p, q := src.functions[k].name, src.functions[k].params[i], src.functions[l].params[i];
    hide Writing, Hands, Reaches, Sound, SoundNames, Stable, OneNameEach, UniqueDepths, WellFormed, ParamsAgree, Good, SinkArgs;
    w := WrappersOf(Writing(src, k, i));
    OneNameIsMissed(src, k, l, i, w);
    var param := if Named(p) in Entries(w, name) then q else p;
    missed := ByName(name, param);
    NotReported(missed, w, name, param);
  }
}
