/**
 The webview rendering override (src-tauri/src/lib.rs): environment variables injected while the
 toggle is on, inherited by the relaunched process, and withdrawn when it goes off.
 */
module RenderingOverride {
  import opened Sequences
  import opened Splitting

  type Env = map<string, string>

  /** The variables involved and the flag; what is proved holds of any names that fit, the source's among them. */
  datatype Names = Names(owned: string, dmabuf: string, compositing: string, args: string, gpuFlag: string)

  const SOURCE_NAMES := Names(
    "DEXTRA_WEBVIEW_RENDERING_OVERRIDE", "WEBKIT_DISABLE_DMABUF_RENDERER", "WEBKIT_DISABLE_COMPOSITING_MODE",
    "WEBVIEW2_ADDITIONAL_BROWSER_ARGUMENTS", "--disable-gpu")

  predicate Fit(n: Names) {
    && IsWord(n.dmabuf, IsComma) && IsWord(n.compositing, IsComma) && IsWord(n.args, IsComma)
    && IsWord(n.gpuFlag, IsSpace)
    && n.dmabuf != n.compositing && n.owned !in {n.dmabuf, n.compositing, n.args}
  }

  predicate IsComma(c: char) {
    c == ','
  }

  /** Unicode `White_Space`. */
  predicate IsSpace(c: char) {
    var n := c as int;
    9 <= n <= 13 || n == 0x20 || n == 0x85 || n == 0xA0 || n == 0x1680 || 0x2000 <= n <= 0x200A ||
    n == 0x2028 || n == 0x2029 || n == 0x202F || n == 0x205F || n == 0x3000
  }

  function Get(env: Env, key: string): string {
    if key in env then env[key] else ""
  }

  /** The variables a previous launch of ours says it injected. */
  function Inherited(n: Names, env: Env): seq<string> {
    Words(Get(env, n.owned), IsComma)
  }

  function Publish(n: Names, env: Env, owned: seq<string>): Env {
    if owned == [] then env - {n.owned} else env[n.owned := Join(owned, ',')]
  }

  // ---- Linux

  function SetOurs(env: Env, key: string, inherited: seq<string>): Env {
    if key !in inherited && key in env then env else env[key := "1"]
  }

  function Ours(env: Env, key: string, inherited: seq<string>): seq<string> {
    if key !in inherited && key in env then [] else [key]
  }

  function RemoveOurs(env: Env, key: string, inherited: seq<string>): Env {
    if key in inherited then env - {key} else env
  }

  /** One launch on Linux, with the toggle on or off. */
  function LinuxLaunch(n: Names, env: Env, disable: bool): Env {
    var inherited := Inherited(n, env);
    if disable then
      Publish(n, SetOurs(SetOurs(env, n.dmabuf, inherited), n.compositing, inherited),
              Ours(env, n.dmabuf, inherited) + Ours(env, n.compositing, inherited))
    else if inherited == [] then env
    else RemoveOurs(RemoveOurs(env, n.dmabuf, inherited), n.compositing, inherited) - {n.owned}
  }

  // ---- Windows

  function Tokens(n: Names, env: Env): seq<string> {
    Words(Get(env, n.args), IsSpace)
  }

  function WithoutGpuFlag(n: Names, tokens: seq<string>): seq<string> {
    if tokens == [] then []
    else WithoutGpuFlag(n, tokens[..|tokens| - 1]) +
         if tokens[|tokens| - 1] == n.gpuFlag then [] else [tokens[|tokens| - 1]]
  }

  function SetArgs(n: Names, env: Env, tokens: seq<string>): Env {
    if tokens == [] then env - {n.args} else env[n.args := Join(tokens, ' ')]
  }

  function WindowsLaunch(n: Names, env: Env, disable: bool): Env {
    var inherited := Inherited(n, env);
    if disable then
      var added := n.gpuFlag !in Tokens(n, env);
      Publish(n, if added then SetArgs(n, env, Tokens(n, env) + [n.gpuFlag]) else env,
              if added || n.args in inherited then [n.args] else [])
    else if inherited == [] then env
    else (if n.args in inherited then SetArgs(n, env, WithoutGpuFlag(n, Tokens(n, env))) else env) - {n.owned}
  }

  /** The process environment both functions edit in place. */
  class Process {
    const n: Names
    var env: Env

    constructor (n: Names, env: Env)
      ensures this.n == n && this.env == env
    {
      this.n, this.env := n, env;
    }

    /** `apply_webview_rendering_override` on Linux. */
    method ApplyLinux(disable: bool)
      requires Fit(n)
      modifies this
      ensures env == LinuxLaunch(n, old(env), disable)
    {
      var inherited := Inherited(n, env);
      if !disable {
        WithdrawLinux(inherited);
        return;
      }
      ghost var before := env;
      var owned: seq<string> := [];
      var keys := [n.dmabuf, n.compositing];
      for i := 0 to |keys|
        invariant i == 0 ==> env == before && owned == []
        invariant i == 1 ==> env == SetOurs(before, n.dmabuf, inherited) && owned == Ours(before, n.dmabuf, inherited)
        invariant i == 2 ==> env == SetOurs(SetOurs(before, n.dmabuf, inherited), n.compositing, inherited)
        invariant i == 2 ==> owned == Ours(before, n.dmabuf, inherited) + Ours(before, n.compositing, inherited)
      {
        var key := keys[i];
        if key !in inherited && key in env { continue; }
        env := env[key := "1"];
        owned := owned + [key];
      }
      env := if owned == [] then env - {n.owned} else env[n.owned := Join(owned, ',')];
    }

    /** `withdraw_webview_rendering_override` on Linux. */
    method WithdrawLinux(inherited: seq<string>)
      requires Fit(n)
      requires inherited == Inherited(n, env)
      modifies this
      ensures env == LinuxLaunch(n, old(env), false)
    {
      if inherited == [] { return; }
      ghost var before := env;
      var keys := [n.dmabuf, n.compositing];
      for i := 0 to |keys|
        invariant i == 0 ==> env == before
        invariant i == 1 ==> env == RemoveOurs(before, n.dmabuf, inherited)
        invariant i == 2 ==> env == RemoveOurs(RemoveOurs(before, n.dmabuf, inherited), n.compositing, inherited)
      {
        if keys[i] in inherited { env := env - {keys[i]}; }
      }
      env := env - {n.owned};
    }

    /** Both functions on Windows. */
    method ApplyWindows(disable: bool)
      modifies this
      ensures env == WindowsLaunch(n, old(env), disable)
    {
      var inherited := Inherited(n, env);
      var tokens := Tokens(n, env);
      if disable {
        var added := n.gpuFlag !in tokens;
        if added {
          tokens := tokens + [n.gpuFlag];
          env := env[n.args := Join(tokens, ' ')];
        }
        env := Publish(n, env, if added || n.args in inherited then [n.args] else []);
      } else if inherited != [] {
        if n.args in inherited {
          var remaining: seq<string> := [];
          for i := 0 to |tokens|
            invariant remaining == WithoutGpuFlag(n, tokens[..i])
          {
            assert tokens[..i + 1][..i] == tokens[..i];
            if tokens[i] != n.gpuFlag { remaining := remaining + [tokens[i]]; }
          }
          assert tokens[..|tokens|] == tokens;
          env := SetArgs(n, env, remaining);
        }
        env := env - {n.owned};
      }
    }
  }

  /** Unicode white space, by its codes. */
  const WHITE_SPACE: set<int> := {9, 10, 11, 12, 13, 0x20, 0x85, 0xA0, 0x1680, 0x2000, 0x2001, 0x2002, 0x2003, 0x2004,
    0x2005, 0x2006, 0x2007, 0x2008, 0x2009, 0x200A, 0x2028, 0x2029, 0x202F, 0x205F, 0x3000}

  lemma IsSpaceIff(c: char)
    ensures IsSpace(c) <==> c as int in WHITE_SPACE
  {
  }

  lemma SpaceSeparates(a: string, c: char, b: string)
    requires IsWord(a, IsSpace) && IsWord(b, IsSpace) && IsSpace(c)
    ensures Words(a + [c] + b, IsSpace) == [a, b]
  {
    Associates(a, [c], b);
    FirstWord(a, [c] + b, IsSpace);
    assert ([c] + b)[1..] == b && b + "" == b;
    FirstWord(b, "", IsSpace);
  }

  lemma NoSpaceJoins(a: string, c: char, b: string)
    requires IsWord(a, IsSpace) && IsWord(b, IsSpace) && !IsSpace(c)
    ensures Words(a + [c] + b, IsSpace) == [a + [c] + b]
  {
    var w := a + [c] + b;
    assert w + "" == w;
    FirstWord(w, "", IsSpace);
  }

  /** Two arguments stand apart exactly if white space stands between them. */
  lemma WhiteSpaceSeparates(a: string, c: char, b: string)
    requires IsWord(a, IsSpace) && IsWord(b, IsSpace)
    ensures Words(a + [c] + b, IsSpace) == if c as int in WHITE_SPACE then [a, b] else [a + [c] + b]
  {
    IsSpaceIff(c);
    if IsSpace(c) { SpaceSeparates(a, c, b); } else { NoSpaceJoins(a, c, b); }
  }

  // ---- Linux over any sequence of launches

  predicate NoComma(w: string) {
    forall i | 0 <= i < |w| :: w[i] != ','
  }

  lemma NoCommaIsWord(w: string)
    requires w != "" && NoComma(w)
    ensures IsWord(w, IsComma)
  {
  }

  lemma DmabufFits()
    ensures NoComma(SOURCE_NAMES.dmabuf)
  {
  }

  lemma CompositingFits()
    ensures NoComma(SOURCE_NAMES.compositing)
  {
  }

  lemma ArgsFit()
    ensures NoComma(SOURCE_NAMES.args)
  {
  }

  predicate NoSpace(w: string) {
    forall i | 0 <= i < |w| :: !IsSpace(w[i])
  }

  lemma NoSpaceIsWord(w: string)
    requires w != "" && NoSpace(w)
    ensures IsWord(w, IsSpace)
  {
  }

  lemma GpuFlagFits()
    ensures NoSpace(SOURCE_NAMES.gpuFlag)
  {
  }

  lemma SourceNamesFit()
    ensures Fit(SOURCE_NAMES)
  {
    var n := SOURCE_NAMES;
    assert |n.dmabuf| == 30 && |n.compositing| == 31 && |n.owned| == 33 && |n.args| == 37 && |n.gpuFlag| == 13;
    DmabufFits();
    CompositingFits();
    ArgsFit();
    GpuFlagFits();
    NoCommaIsWord(n.dmabuf);
    NoCommaIsWord(n.compositing);
    NoCommaIsWord(n.args);
    NoSpaceIsWord(n.gpuFlag);
  }

  /** The variables the toggle may claim: those the user has not exported. */
  function Free(n: Names, user: Env): seq<string> {
    Ours(user, n.dmabuf, []) + Ours(user, n.compositing, [])
  }

  /** The user's environment with the override applied. */
  function LinuxOverridden(n: Names, user: Env): Env {
    Publish(n, SetOurs(SetOurs(user, n.dmabuf, []), n.compositing, []), Free(n, user))
  }

  lemma InheritedOfOverridden(n: Names, user: Env)
    requires Fit(n) && n.owned !in user
    ensures Inherited(n, user) == [] && Inherited(n, LinuxOverridden(n, user)) == Free(n, user)
  {
    forall w | w in Free(n, user) ensures IsWord(w, IsComma) { assert w in {n.dmabuf, n.compositing}; }
    WordsOfJoin(Free(n, user), ',', IsComma);
  }

  /** Two claimed variables under a mark are kept by another claim and undone by a withdrawal. */
  lemma ClaimAndWithdraw(user: Env, a: string, b: string, mark: string, value: string)
    requires a != b && mark !in {a, b} && mark !in user
    ensures var claimed := Ours(user, a, []) + Ours(user, b, []);
            var env := SetOurs(SetOurs(user, a, []), b, [])[mark := value];
            && SetOurs(SetOurs(env, a, claimed), b, claimed) == env
            && Ours(env, a, claimed) + Ours(SetOurs(env, a, claimed), b, claimed) == claimed
            && RemoveOurs(RemoveOurs(env, a, claimed), b, claimed) - {mark} == user
  {
  }

  lemma LinuxLaunches(n: Names, user: Env, disable: bool)
    requires Fit(n) && n.owned !in user
    ensures LinuxLaunch(n, user, disable) == if disable then LinuxOverridden(n, user) else user
    ensures LinuxLaunch(n, LinuxOverridden(n, user), disable) == if disable then LinuxOverridden(n, user) else user
  {
    InheritedOfOverridden(n, user);
    if Free(n, user) == [] {
      assert n.dmabuf in user && n.compositing in user;
      assert LinuxOverridden(n, user) == user;
    } else {
      ClaimAndWithdraw(user, n.dmabuf, n.compositing, n.owned, Join(Free(n, user), ','));
    }
  }

  function LinuxRun(n: Names, env: Env, toggles: seq<bool>): Env {
    if toggles == [] then env else LinuxLaunch(n, LinuxRun(n, env, toggles[..|toggles| - 1]), toggles[|toggles| - 1])
  }

  /**
   Restart round trip on Linux. After any sequence of launches, each inheriting the environment of the
   one before: nothing the user exported has changed; if the last launch was on, the variables the user
   had not set hold "1" and nothing else is new but the marker; if it was off, the environment is the
   user's own again, whatever came in between.
   */
  lemma {:induction false} LinuxRoundTrip(n: Names, user: Env, toggles: seq<bool>)
    requires Fit(n) && n.owned !in user
    ensures var env := LinuxRun(n, user, toggles);
            && (forall v | v in user :: v in env && env[v] == user[v])
            && (toggles != [] && !toggles[|toggles| - 1] ==> env == user)
            && (toggles != [] && toggles[|toggles| - 1] ==>
                  && n.dmabuf in env && env[n.dmabuf] == (if n.dmabuf in user then user[n.dmabuf] else "1")
                  && n.compositing in env && env[n.compositing] == (if n.compositing in user then user[n.compositing] else "1")
                  && env.Keys - {n.owned} == user.Keys + {n.dmabuf, n.compositing})
            && (env == user || env == LinuxOverridden(n, user))
  {
    if toggles != [] {
      LinuxRoundTrip(n, user, toggles[..|toggles| - 1]);
      LinuxLaunches(n, user, toggles[|toggles| - 1]);
      OverriddenValues(n, user);
    }
  }

  /** What the environment holds while on. */
  lemma OverriddenValues(n: Names, user: Env)
    requires Fit(n) && n.owned !in user
    ensures var env := LinuxOverridden(n, user);
            && (forall v | v in user :: v in env && env[v] == user[v])
            && n.dmabuf in env && env[n.dmabuf] == (if n.dmabuf in user then user[n.dmabuf] else "1")
            && n.compositing in env && env[n.compositing] == (if n.compositing in user then user[n.compositing] else "1")
            && env.Keys - {n.owned} == user.Keys + {n.dmabuf, n.compositing}
  {
  }

  // ---- Windows over any sequence of launches

  /** Everything but the browser arguments and our marker. */
  function Elsewhere(n: Names, env: Env): Env {
    env - {n.args, n.owned}
  }

  /** Either the user's tokens without our marker, or those and our flag under it. */
  ghost predicate WindowsInv(n: Names, env: Env, user: Env) {
    && Elsewhere(n, env) == Elsewhere(n, user)
    && ((n.owned !in env && Tokens(n, env) == Tokens(n, user)) ||
        (Inherited(n, env) == [n.args] && n.gpuFlag !in Tokens(n, user) &&
         Tokens(n, env) == Tokens(n, user) + [n.gpuFlag]))
  }

  lemma {:induction false} WithoutGpuFlagId(n: Names, tokens: seq<string>)
    requires n.gpuFlag !in tokens
    ensures WithoutGpuFlag(n, tokens) == tokens
    ensures WithoutGpuFlag(n, tokens + [n.gpuFlag]) == tokens
  {
    assert (tokens + [n.gpuFlag])[..|tokens|] == tokens;
    if tokens != [] {
      assert tokens[|tokens| - 1] in tokens;
      assert n.gpuFlag !in tokens[..|tokens| - 1];
      WithoutGpuFlagId(n, tokens[..|tokens| - 1]);
    }
  }

  /** Setting a token list sets exactly that token list. */
  lemma SetArgsTokens(n: Names, env: Env, tokens: seq<string>)
    requires Fit(n)
    requires forall t | t in tokens :: IsWord(t, IsSpace)
    ensures Tokens(n, SetArgs(n, env, tokens)) == tokens && Elsewhere(n, SetArgs(n, env, tokens)) == Elsewhere(n, env)
    ensures Get(SetArgs(n, env, tokens), n.owned) == Get(env, n.owned)
    ensures n.owned in SetArgs(n, env, tokens) <==> n.owned in env
  {
    WordsOfJoin(tokens, ' ', IsSpace);
  }

  lemma PublishOnlyMarks(n: Names, env: Env, owned: seq<string>)
    requires Fit(n)
    requires owned == [] || owned == [n.args]
    ensures Tokens(n, Publish(n, env, owned)) == Tokens(n, env) && Elsewhere(n, Publish(n, env, owned)) == Elsewhere(n, env)
    ensures Inherited(n, Publish(n, env, owned)) == owned && (owned == [] ==> n.owned !in Publish(n, env, owned))
  {
    assert Get(Publish(n, env, owned), n.args) == Get(env, n.args);
    assert Get(Publish(n, env, owned), n.owned) == Join(owned, ',');
    forall w | w in owned ensures IsWord(w, IsComma) { assert w == n.args; }
    WordsOfJoin(owned, ',', IsComma);
  }

  lemma WindowsLaunchKeeps(n: Names, env: Env, user: Env, disable: bool)
    requires Fit(n) && WindowsInv(n, env, user)
    ensures WindowsInv(n, WindowsLaunch(n, env, disable), user)
    ensures !disable ==> n.owned !in WindowsLaunch(n, env, disable)
    ensures disable ==> n.gpuFlag in Tokens(n, WindowsLaunch(n, env, disable))
  {
    WordsAreWords(Get(user, n.args), IsSpace);
    var ours := Tokens(n, user) + [n.gpuFlag];
    if disable {
      SetArgsTokens(n, env, ours);
      PublishOnlyMarks(n, SetArgs(n, env, ours), [n.args]);
      PublishOnlyMarks(n, env, [n.args]);
      PublishOnlyMarks(n, env, []);
    } else if Inherited(n, env) != [] {
      WithoutGpuFlagId(n, Tokens(n, user));
      SetArgsTokens(n, env, Tokens(n, user));
      PublishOnlyMarks(n, SetArgs(n, env, Tokens(n, user)), []);
    }
  }

  function WindowsRun(n: Names, env: Env, toggles: seq<bool>): Env {
    if toggles == [] then env else WindowsLaunch(n, WindowsRun(n, env, toggles[..|toggles| - 1]), toggles[|toggles| - 1])
  }

  /**
   Restart round trip on Windows. After any sequence of launches every other variable is untouched and
   the user's argument tokens are all there, in order, first; after an off launch they are exactly the
   user's, with no marker left.
   */
  lemma {:induction false} WindowsRoundTrip(n: Names, user: Env, toggles: seq<bool>)
    requires Fit(n) && n.owned !in user
    ensures var env := WindowsRun(n, user, toggles);
            && WindowsInv(n, env, user)
            && Tokens(n, user) <= Tokens(n, env)
            && (toggles != [] && !toggles[|toggles| - 1] ==> n.owned !in env && Tokens(n, env) == Tokens(n, user))
            && (toggles != [] && toggles[|toggles| - 1] ==>
                  Tokens(n, env) == Tokens(n, user) + if n.gpuFlag in Tokens(n, user) then [] else [n.gpuFlag])
  {
    if toggles != [] {
      WindowsRoundTrip(n, user, toggles[..|toggles| - 1]);
      WindowsLaunchKeeps(n, WindowsRun(n, user, toggles[..|toggles| - 1]), user, toggles[|toggles| - 1]);
    }
  }

  /**
   The value itself, rather than its tokens. Over any sequence of launches that was on at some time and
   ends off, the user's environment comes back unchanged if and only if the flag was the user's, the
   variable was unset, or its value was single-spaced and not blank.
   */
  lemma WindowsExactlyRestoredIff(n: Names, user: Env, toggles: seq<bool>)
    requires Fit(n) && n.owned !in user
    requires true in toggles && !toggles[|toggles| - 1]
    ensures WindowsRun(n, user, toggles) == user <==>
            n.gpuFlag in Tokens(n, user) || n.args !in user ||
            (Tokens(n, user) != [] && user[n.args] == Join(Tokens(n, user), ' '))
  {
    if n.gpuFlag in Tokens(n, user) {
      WindowsFlagIsTheUsers(n, user, toggles);
    } else {
      WindowsTwoStates(n, user, toggles);
      if n.args !in user { assert Tokens(n, user) == []; }
    }
  }

  /** A user who has the flag already never sees a change. */
  lemma {:induction false} WindowsFlagIsTheUsers(n: Names, user: Env, toggles: seq<bool>)
    requires Fit(n) && n.owned !in user && n.gpuFlag in Tokens(n, user)
    ensures WindowsRun(n, user, toggles) == user
  {
    if toggles != [] {
      WindowsFlagIsTheUsers(n, user, toggles[..|toggles| - 1]);
      assert Inherited(n, user) == [];
    }
  }

  /** The environment while on. */
  function WindowsOverridden(n: Names, user: Env): Env {
    SetArgs(n, user, Tokens(n, user) + [n.gpuFlag])[n.owned := n.args]
  }

  /** Otherwise the environment is the user's until the first launch that is on, and one of two after it. */
  lemma {:induction false} WindowsTwoStates(n: Names, user: Env, toggles: seq<bool>)
    requires Fit(n) && n.owned !in user && n.gpuFlag !in Tokens(n, user)
    ensures WindowsRun(n, user, toggles) ==
            if true !in toggles then user
            else if toggles[|toggles| - 1] then WindowsOverridden(n, user)
            else SetArgs(n, user, Tokens(n, user))
  {
    if toggles != [] {
      var init, last := toggles[..|toggles| - 1], toggles[|toggles| - 1];
      WindowsTwoStates(n, user, init);
      assert toggles == init + [last];
      WindowsFromUser(n, user, last);
      WindowsFromOverridden(n, user, last);
      WindowsFromRestored(n, user, last);
    }
  }

  lemma WindowsFromUser(n: Names, user: Env, disable: bool)
    requires Fit(n) && n.owned !in user && n.gpuFlag !in Tokens(n, user)
    ensures WindowsLaunch(n, user, disable) == if disable then WindowsOverridden(n, user) else user
  {
    assert Inherited(n, user) == [];
    assert Join([n.args], ',') == n.args;
  }

  /** What the next launch reads out of the environment while on. */
  lemma OverriddenReads(n: Names, user: Env)
    requires Fit(n) && n.owned !in user && n.gpuFlag !in Tokens(n, user)
    ensures Inherited(n, WindowsOverridden(n, user)) == [n.args]
    ensures Tokens(n, WindowsOverridden(n, user)) == Tokens(n, user) + [n.gpuFlag]
    ensures Publish(n, WindowsOverridden(n, user), [n.args]) == WindowsOverridden(n, user)
  {
    var ours := Tokens(n, user) + [n.gpuFlag];
    WordsAreWords(Get(user, n.args), IsSpace);
    SetArgsTokens(n, user, ours);
    assert Join([n.args], ',') == n.args;
    assert WindowsOverridden(n, user) == Publish(n, SetArgs(n, user, ours), [n.args]);
    PublishOnlyMarks(n, SetArgs(n, user, ours), [n.args]);
  }

  lemma WindowsFromOverridden(n: Names, user: Env, disable: bool)
    requires Fit(n) && n.owned !in user && n.gpuFlag !in Tokens(n, user)
    ensures WindowsLaunch(n, WindowsOverridden(n, user), disable) ==
            if disable then WindowsOverridden(n, user) else SetArgs(n, user, Tokens(n, user))
  {
    OverriddenReads(n, user);
    WithoutGpuFlagId(n, Tokens(n, user));
    SetTwice(n, user, Tokens(n, user) + [n.gpuFlag], Tokens(n, user), n.args);
  }

  lemma WindowsFromRestored(n: Names, user: Env, disable: bool)
    requires Fit(n) && n.owned !in user && n.gpuFlag !in Tokens(n, user)
    ensures WindowsLaunch(n, SetArgs(n, user, Tokens(n, user)), disable) ==
            if disable then WindowsOverridden(n, user) else SetArgs(n, user, Tokens(n, user))
  {
    var tokens := Tokens(n, user);
    var off := SetArgs(n, user, tokens);
    WordsAreWords(Get(user, n.args), IsSpace);
    SetArgsTokens(n, user, tokens);
    assert Inherited(n, off) == [];
    assert Join([n.args], ',') == n.args;
    assert SetArgs(n, off, tokens + [n.gpuFlag]) == SetArgs(n, user, tokens + [n.gpuFlag]);
  }

  lemma SetTwice(n: Names, user: Env, first: seq<string>, second: seq<string>, mark: string)
    requires Fit(n) && n.owned !in user && n.owned != n.args
    ensures SetArgs(n, SetArgs(n, user, first)[n.owned := mark], second) - {n.owned} == SetArgs(n, user, second)
  {
  }
}
