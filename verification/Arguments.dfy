/** Registered callbacks and the arguments they are called with. */
module Arguments {
  import opened Basics

  /** A Go type, of which only the kind and the identity matter. */
  datatype Type = Type(name: string, isPtr: bool)

  const CONTEXT_TYPE := Type("context.Context", false)
  const STRING_TYPE := Type("string", false)

  /** A JSON value as it stands in the parameters. */
  type Json = string

  /** A reflected value: its type, and what it holds (`None` is the zero value). */
  datatype Value = Value(ty: Type, held: Option<string>)

  /** Decoding a JSON value into a type: the value held, or an error. */
  type Decoder = (Json, Type) -> Option<string>

  /** The raw `params`: absent (or empty, or null), malformed, not an array, or an array with its
      elements; `closed` says that the end of the array can be read. */
  datatype Params = Absent | Malformed | NotAnArray | Elems(elems: seq<Json>, closed: bool)

  /** Why parameters are refused, with the position at fault where there is one. */
  datatype Fault =
    | Syntax | NonArray | TooMany(want: nat) | Invalid(at: nat) | Unclosed | Missing(at: nat)
    | MethodNotFound | Unsupported | NoName | SubscriptionNotFound

  datatype Parsed = Args(args: seq<Value>) | BadParams(fault: Fault)

  function Types(vs: seq<Value>): (ts: seq<Type>)
    ensures |ts| == |vs| && forall i :: 0 <= i < |ts| ==> ts[i] == vs[i].ty
  {
    seq(|vs|, i requires 0 <= i < |vs| => vs[i].ty)
  }

  /** The supplied values fit, each decodes, and the omitted ones are optional. */
  ghost predicate Acceptable(p: Params, types: seq<Type>, decode: Decoder) {
    && !p.Malformed? && !p.NotAnArray?
    && var elems := if p.Elems? then p.elems else [];
    && (p.Elems? ==> p.closed)
    && |elems| <= |types|
    && (forall i :: 0 <= i < |elems| ==> decode(elems[i], types[i]).Some?)
    && (forall i :: |elems| <= i < |types| ==> types[i].isPtr)
  }

  /** Each of the values is the decoded element in its place, or nil if there is none. */
  ghost predicate Supplied(args: seq<Value>, elems: seq<Json>, types: seq<Type>, decode: Decoder) {
    && |elems| <= |args| == |types|
    && forall i :: 0 <= i < |args| ==>
         args[i] == Value(types[i], if i < |elems| then decode(elems[i], types[i]) else None)
  }

  /** The first `n` elements decode. */
  ghost predicate Decodes(elems: seq<Json>, types: seq<Type>, n: nat, decode: Decoder) {
    n <= |elems| && n <= |types| && forall i :: 0 <= i < n ==> decode(elems[i], types[i]).Some?
  }

  /** The fault is the first one met, reading from left to right. */
  ghost predicate Blames(f: Fault, p: Params, types: seq<Type>, decode: Decoder) {
    var elems := if p.Elems? then p.elems else [];
    match f
    case MethodNotFound | Unsupported | NoName | SubscriptionNotFound => false
    case Syntax => p.Malformed?
    case NonArray => p.NotAnArray?
    case TooMany(want) => want == |types| < |elems| && Decodes(elems, types, want, decode)
    case Invalid(at) => at < |elems| && at < |types| && Decodes(elems, types, at, decode)
                       && decode(elems[at], types[at]).None?
    case Unclosed => p.Elems? && !p.closed && Decodes(elems, types, |elems|, decode)
    case Missing(at) =>
      && |elems| <= at < |types| && Decodes(elems, types, |elems|, decode)
      && !types[at].isPtr && forall i :: |elems| <= i < at ==> types[i].isPtr
  }

  method ParseArgumentArray(elems: seq<Json>, closed: bool, types: seq<Type>, decode: Decoder) returns (r: Parsed)
    ensures r.Args? <==>
              closed && |elems| <= |types| && forall i :: 0 <= i < |elems| ==> decode(elems[i], types[i]).Some?
    ensures r.Args? ==>
              && |r.args| == |elems|
              && forall i :: 0 <= i < |elems| ==> r.args[i] == Value(types[i], decode(elems[i], types[i]))
    ensures r.BadParams? ==> !r.fault.Missing? && Blames(r.fault, Elems(elems, closed), types, decode)
  {
    var args: seq<Value> := [];
    var i := 0;
    while i < |elems|
      invariant 0 <= i <= |elems| && i <= |types| && |args| == i
      invariant forall k :: 0 <= k < i ==>
                  decode(elems[k], types[k]).Some? && args[k] == Value(types[k], decode(elems[k], types[k]))
    {
      if i >= |types| {
        return BadParams(TooMany(|types|));
      }
      var argval := decode(elems[i], types[i]);
      if argval.None? {
        return BadParams(Invalid(i));
      }
      args := args + [Value(types[i], argval)];
      i := i + 1;
    }
    if !closed {
      return BadParams(Unclosed);
    }
    return Args(args);
  }

  /** Parsing succeeds exactly on acceptable parameters, and then yields one value of each type, in
      order: the supplied ones decoded, the omitted ones nil.  Otherwise the first fault is reported. */
  method ParsePositionalArguments(p: Params, types: seq<Type>, decode: Decoder) returns (r: Parsed)
    ensures r.Args? <==> Acceptable(p, types, decode)
    ensures r.Args? ==> Types(r.args) == types
    ensures r.Args? ==> Supplied(r.args, if p.Elems? then p.elems else [], types, decode)
    ensures r.BadParams? ==> Blames(r.fault, p, types, decode)
  {
    var args: seq<Value> := [];
    match p {
      case Absent =>
      case Malformed => return BadParams(Syntax);
      case NotAnArray => return BadParams(NonArray);
      case Elems(elems, closed) =>
        r := ParseArgumentArray(elems, closed, types, decode);
        if r.BadParams? {
          return;
        }
        args := r.args;
    }
    var n := |args|;
    ghost var supplied := args;
    while |args| < |types|
      invariant n <= |args| <= |types| && args[..n] == supplied
      invariant forall i :: 0 <= i < |args| ==> args[i].ty == types[i]
      invariant forall i :: n <= i < |args| ==> types[i].isPtr && args[i].held.None?
      decreases |types| - |args|
    {
      if !types[|args|].isPtr {
        return BadParams(Missing(|args|));
      }
      args := args + [Value(types[|args|], None)];
    }
    return Args(args);
  }

  // ---------------------------------------------------------------------------------------------
  // Callbacks

  /** A function as reflection sees it, and the receiver it is bound to, if it is a method. */
  datatype Func = Func(ins: seq<Type>, rcvr: Option<Value>)
  {
    /** A method's first parameter is its receiver. */
    ghost predicate WellTyped() {
      rcvr.Some? ==> |ins| > 0 && ins[0] == rcvr.value.ty
    }
  }

  class Callback {
    const fn: Func
    var argTypes: seq<Type>
    var hasCtx: bool

    constructor (fn: Func)
      requires fn.WellTyped()
      ensures this.fn == fn && Valid()
    {
      this.fn := fn;
      argTypes, hasCtx := [], false;
      new;
      MakeArgTypes();
    }

    /** Receiver, optional context and argument types make up the parameters of the function. */
    ghost predicate Valid()
      reads this
    {
      && fn.WellTyped()
      && fn.ins == (if fn.rcvr.Some? then [fn.rcvr.value.ty] else [])
                   + (if hasCtx then [CONTEXT_TYPE] else []) + argTypes
      && (!hasCtx ==> argTypes == [] || argTypes[0] != CONTEXT_TYPE)
    }

    method MakeArgTypes()
      requires fn.WellTyped() && !hasCtx
      modifies this
      ensures Valid()
    {
      var firstArg := 0;
      ghost var prefix: seq<Type> := [];
      if fn.rcvr.Some? {
        prefix := [fn.rcvr.value.ty];
        firstArg := firstArg + 1;
      }
      assert fn.ins[..firstArg] == prefix;
      if |fn.ins| > firstArg && fn.ins[firstArg] == CONTEXT_TYPE {
        hasCtx := true;
        prefix := prefix + [CONTEXT_TYPE];
        firstArg := firstArg + 1;
      }
      assert fn.ins[..firstArg] == prefix;
      AddTypes(firstArg);
      assert fn.ins == prefix + argTypes;
    }

    /** The remaining parameters. */
    method AddTypes(firstArg: nat)
      requires firstArg <= |fn.ins|
      modifies this`argTypes
      ensures argTypes == fn.ins[firstArg..]
    {
      argTypes := [];
      var i := firstArg;
      while i < |fn.ins|
        invariant firstArg <= i <= |fn.ins|
        invariant argTypes == fn.ins[firstArg..i]
      {
        assert fn.ins[firstArg..i + 1] == fn.ins[firstArg..i] + [fn.ins[i]];
        argTypes := argTypes + [fn.ins[i]];
        i := i + 1;
      }
    }

    /** The argument list that the function is called with. */
    method FullArgs(ctx: Value, args: seq<Value>) returns (full: seq<Value>)
      requires Valid() && ctx.ty == CONTEXT_TYPE && Types(args) == argTypes
      ensures Types(full) == fn.ins
      ensures |args| <= |full| && full[|full| - |args|..] == args
      ensures fn.rcvr.Some? ==> |full| > 0 && full[0] == fn.rcvr.value
      ensures hasCtx ==> |full| > |args| && full[|full| - |args| - 1] == ctx
    {
      full := [];
      if fn.rcvr.Some? {
        full := full + [fn.rcvr.value];
      }
      if hasCtx {
        full := full + [ctx];
      }
      full := full + args;
    }
  }

  // ---------------------------------------------------------------------------------------------
  // Finding the callback

  const SERVICE_METHOD_SEPARATOR := '_'
  const SUBSCRIBE_METHOD_SUFFIX := "_subscribe"
  const UNSUBSCRIBE_METHOD_SUFFIX := "_unsubscribe"

  datatype Service = Service(callbacks: map<string, Callback>, subscriptions: map<string, Callback>)

  type Services = map<string, Service>

  ghost predicate AllValid(services: Services)
    reads set s, m | s in services && m in services[s].callbacks :: services[s].callbacks[m]
    reads set s, m | s in services && m in services[s].subscriptions :: services[s].subscriptions[m]
  {
    && (forall s, m :: s in services && m in services[s].callbacks ==> services[s].callbacks[m].Valid())
    && (forall s, m :: s in services && m in services[s].subscriptions ==> services[s].subscriptions[m].Valid())
  }

  /** Where the first separator is, or the length. */
  function SeparatorAt(name: string): (i: nat)
    ensures i <= |name|
  {
    if name == "" || name[0] == SERVICE_METHOD_SEPARATOR then 0 else 1 + SeparatorAt(name[1..])
  }

  function Namespace(name: string): string {
    name[..SeparatorAt(name)]
  }

  function CallbackOf(services: Services, name: string): Callback? {
    var i := SeparatorAt(name);
    if i < |name| && name[..i] in services && name[i + 1..] in services[name[..i]].callbacks
    then services[name[..i]].callbacks[name[i + 1..]] else null
  }

  function SubscriptionsOf(services: Services, service: string): map<string, Callback> {
    if service in services then services[service].subscriptions else map[]
  }

  lemma {:induction false} SeparatorSplits(service: string, entry: string)
    requires SERVICE_METHOD_SEPARATOR !in service
    ensures SeparatorAt(service + [SERVICE_METHOD_SEPARATOR] + entry) == |service|
  {
    var name := service + [SERVICE_METHOD_SEPARATOR] + entry;
    if service != "" {
      assert name[1..] == service[1..] + [SERVICE_METHOD_SEPARATOR] + entry;
      SeparatorSplits(service[1..], entry);
    }
  }

  lemma {:induction false} NoneBefore(name: string)
    ensures SERVICE_METHOD_SEPARATOR !in Namespace(name)
    ensures SeparatorAt(name) < |name| ==> name[SeparatorAt(name)] == SERVICE_METHOD_SEPARATOR
  {
    if name != "" && name[0] != SERVICE_METHOD_SEPARATOR {
      NoneBefore(name[1..]);
      assert Namespace(name) == [name[0]] + Namespace(name[1..]);
    }
  }

  /** `name` addresses the method of that service. */
  ghost predicate Addresses(name: string, service: string, entry: string) {
    name == service + [SERVICE_METHOD_SEPARATOR] + entry && SERVICE_METHOD_SEPARATOR !in service
  }

  /** A name leads to a callback exactly if it is made of the name of a service without a separator and
      the name under which that service has the callback.  So what is registered under a service whose
      name has a separator cannot be called. */
  lemma CallableExactlyIf(services: Services, name: string, callb: Callback)
    ensures CallbackOf(services, name) == callb <==>
            exists s, m :: Addresses(name, s, m) && s in services && m in services[s].callbacks
                           && services[s].callbacks[m] == callb
  {
    var i := SeparatorAt(name);
    if CallbackOf(services, name) == callb {
      NoneBefore(name);
      assert name == name[..i] + [SERVICE_METHOD_SEPARATOR] + name[i + 1..];
      assert Addresses(name, name[..i], name[i + 1..]);
    }
    forall s, m | Addresses(name, s, m) ensures i == |s| && name[..i] == s && name[i + 1..] == m {
      SeparatorSplits(s, m);
    }
  }

  /** The same for subscriptions: the name of the method has the service in front, and the service has the
      callback under the name of the subscription. */
  lemma SubscribableExactlyIf(services: Services, name: string, subscription: string, callb: Callback)
    requires HasSuffix(name, SUBSCRIBE_METHOD_SUFFIX)
    ensures var found := SubscriptionsOf(services, Namespace(name));
            subscription in found && found[subscription] == callb <==>
            exists s, m :: Addresses(name, s, m) && s in services && subscription in services[s].subscriptions
                           && services[s].subscriptions[subscription] == callb
  {
    var i := SeparatorAt(name);
    NoneBefore(name);
    assert name[|name| - |SUBSCRIBE_METHOD_SUFFIX|] == SERVICE_METHOD_SEPARATOR;
    assert name == name[..i] + [SERVICE_METHOD_SEPARATOR] + name[i + 1..];
    assert Addresses(name, name[..i], name[i + 1..]);
    forall s, m | Addresses(name, s, m) ensures Namespace(name) == s {
      SeparatorSplits(s, m);
    }
  }

  // ---------------------------------------------------------------------------------------------
  // Calling it

  /** What calling `callb` comes to: without a callback the method is unknown; otherwise acceptable
      parameters, and only they, lead to a call, and the first fault is reported. */
  ghost predicate CallOutcome(callb: Callback?, p: Params, decode: Decoder, r: Parsed)
    reads callb
  {
    && (r == BadParams(MethodNotFound) <==> callb == null)
    && (callb != null ==>
          && (r.Args? <==> Acceptable(p, callb.argTypes, decode))
          && (r.Args? ==> Calls(callb, r.args, if p.Elems? then p.elems else [], decode))
          && (r.BadParams? ==> Blames(r.fault, p, callb.argTypes, decode)))
  }

  /** What a call of the method `name` comes to.  Names with the suffix for unsubscribing lead to the
      handler's own callback, whatever is registered. */
  method HandleCall(name: string, services: Services, unsubscribe: Callback, allowed: bool,
                    text: Json -> Option<string>, ctx: Value, p: Params, decode: Decoder) returns (r: Parsed)
    requires AllValid(services) && unsubscribe.Valid()
    requires ctx.ty == CONTEXT_TYPE
    ensures if HasSuffix(name, SUBSCRIBE_METHOD_SUFFIX)
            then SubscribeOutcome(allowed, SubscriptionsOf(services, Namespace(name)), text, p, decode, r)
            else if HasSuffix(name, UNSUBSCRIBE_METHOD_SUFFIX) then CallOutcome(unsubscribe, p, decode, r)
            else CallOutcome(CallbackOf(services, name), p, decode, r)
  {
    if HasSuffix(name, SUBSCRIBE_METHOD_SUFFIX) {
      r := HandleSubscribe(allowed, SubscriptionsOf(services, Namespace(name)), text, ctx, p, decode);
      return;
    }
    var callb: Callback? := unsubscribe;
    if !HasSuffix(name, UNSUBSCRIBE_METHOD_SUFFIX) {
      callb := CallbackOf(services, name);
    }
    if callb == null {
      return BadParams(MethodNotFound);
    }
    r := ParsePositionalArguments(p, callb.argTypes, decode);
    if r.BadParams? {
      return;
    }
    r := Call(callb, ctx, r.args, if p.Elems? then p.elems else [], decode);
  }

  method Call(callb: Callback, ctx: Value, args: seq<Value>, ghost elems: seq<Json>, decode: Decoder)
    returns (r: Parsed)
    requires callb.Valid() && ctx.ty == CONTEXT_TYPE
    requires Types(args) == callb.argTypes && Supplied(args, elems, callb.argTypes, decode)
    ensures r.Args? && Calls(callb, r.args, elems, decode)
  {
    var full := callb.FullArgs(ctx, args);
    assert full[|full| - |callb.argTypes|..] == args;
    return Args(full);
  }

  /** The function is called with its parameters, of which the last are those supplied. */
  ghost predicate Calls(callb: Callback, full: seq<Value>, elems: seq<Json>, decode: Decoder)
    reads callb
  {
    && Types(full) == callb.fn.ins
    && |callb.argTypes| <= |full|
    && Supplied(full[|full| - |callb.argTypes|..], elems, callb.argTypes, decode)
  }

  predicate Named(p: Params, text: Json -> Option<string>) {
    p.Elems? && p.elems != [] && text(p.elems[0]).Some?
  }

  /** The name of a subscription: the first element of the parameters, if it is a JSON string (`text`
      says what the text is of a JSON string). */
  method ParseSubscriptionName(p: Params, text: Json -> Option<string>) returns (name: string, fault: Option<Fault>)
    ensures fault.None? <==> Named(p, text)
    ensures fault.None? ==> name == text(p.elems[0]).value
    ensures fault.Some? ==> fault.value == if p.Elems? then NoName else NonArray
  {
    if !p.Elems? {
      return "", Some(NonArray);
    }
    if p.elems == [] || text(p.elems[0]).None? {
      return "", Some(NoName);
    }
    return text(p.elems[0]).value, None;
  }

  /** What a subscribe call comes to; `subscriptions` has the callbacks of the namespace. */
  ghost predicate SubscribeOutcome(allowed: bool, subscriptions: map<string, Callback>, text: Json -> Option<string>,
                                   p: Params, decode: Decoder, r: Parsed)
    reads subscriptions.Values
  {
    if !allowed then r == BadParams(Unsupported)
    else if !Named(p, text) then r == BadParams(if p.Elems? then NoName else NonArray)
    else if text(p.elems[0]).value !in subscriptions then r == BadParams(SubscriptionNotFound)
    else
      var callb := subscriptions[text(p.elems[0]).value];
      && (r.Args? <==> decode(p.elems[0], STRING_TYPE).Some?
                       && Acceptable(p.(elems := p.elems[1..]), callb.argTypes, decode))
      && (r.Args? ==> Calls(callb, r.args, p.elems[1..], decode))
      && (r.BadParams? ==> Blames(r.fault, p, [STRING_TYPE] + callb.argTypes, decode))
  }

  /** The subscription's name is parsed as the first argument, too, and dropped before the function is
      called. */
  method HandleSubscribe(allowed: bool, subscriptions: map<string, Callback>, text: Json -> Option<string>,
                         ctx: Value, p: Params, decode: Decoder) returns (r: Parsed)
    requires forall name :: name in subscriptions ==> subscriptions[name].Valid()
    requires ctx.ty == CONTEXT_TYPE
    ensures SubscribeOutcome(allowed, subscriptions, text, p, decode, r)
  {
    if !allowed {
      return BadParams(Unsupported);
    }
    var name, fault := ParseSubscriptionName(p, text);
    if fault.Some? {
      return BadParams(fault.value);
    }
    if name !in subscriptions {
      return BadParams(SubscriptionNotFound);
    }
    r := CallSubscription(subscriptions[name], ctx, p, decode);
  }

  method CallSubscription(callb: Callback, ctx: Value, p: Params, decode: Decoder) returns (r: Parsed)
    requires callb.Valid() && ctx.ty == CONTEXT_TYPE && p.Elems? && p.elems != []
    ensures r.Args? <==> decode(p.elems[0], STRING_TYPE).Some?
                         && Acceptable(p.(elems := p.elems[1..]), callb.argTypes, decode)
    ensures r.Args? ==> Calls(callb, r.args, p.elems[1..], decode)
    ensures r.BadParams? ==> Blames(r.fault, p, [STRING_TYPE] + callb.argTypes, decode)
  {
    var types := [STRING_TYPE] + callb.argTypes;
    r := ParsePositionalArguments(p, types, decode);
    ShiftAcceptable(p, callb.argTypes, decode);
    if r.BadParams? {
      return;
    }
    DropName(r.args, p.elems, callb.argTypes, decode);
    r := Call(callb, ctx, r.args[1..], p.elems[1..], decode);
  }

  /** With a string type put in front, acceptable parameters are those whose first element is a string
      and whose remaining elements are acceptable by themselves. */
  lemma ShiftAcceptable(p: Params, types: seq<Type>, decode: Decoder)
    requires p.Elems? && p.elems != []
    ensures Acceptable(p, [STRING_TYPE] + types, decode) <==>
            decode(p.elems[0], STRING_TYPE).Some? && Acceptable(p.(elems := p.elems[1..]), types, decode)
  {
    var elems, rest, all := p.elems, p.elems[1..], [STRING_TYPE] + types;
    if Acceptable(p, all, decode) {
      forall i | 0 <= i < |rest| ensures decode(rest[i], types[i]).Some? {
        assert decode(elems[i + 1], all[i + 1]).Some?;
      }
      forall i | |rest| <= i < |types| ensures types[i].isPtr {
        assert all[i + 1].isPtr;
      }
      assert decode(elems[0], all[0]).Some?;
    }
    if decode(elems[0], STRING_TYPE).Some? && Acceptable(p.(elems := rest), types, decode) {
      forall i | 0 <= i < |elems| ensures decode(elems[i], all[i]).Some? {
        if i > 0 {
          assert elems[i] == rest[i - 1] && all[i] == types[i - 1];
        }
      }
      forall i | |elems| <= i < |all| ensures all[i].isPtr {
        assert all[i] == types[i - 1];
      }
    }
  }

  /** Without the name, the values are those of the remaining elements. */
  lemma DropName(args: seq<Value>, elems: seq<Json>, types: seq<Type>, decode: Decoder)
    requires elems != [] && Supplied(args, elems, [STRING_TYPE] + types, decode)
    ensures Supplied(args[1..], elems[1..], types, decode) && Types(args[1..]) == types
  {
  }
}
