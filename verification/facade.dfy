/** The `Preloader` facade: configuration setters, run conditions, the precondition checks
    and the generation of the script. The traits `Conditions`, `ManagesFiles` and
    `LimitsList` that PHP mixes into the class are members of the class here. */
module Facade {
  import opened Php
  import opened Lister
  import opened Compiler

  /** Default threshold of `whenHits()`. */
  const DefaultHits: int := 200000

  /** Default chance of `whenOneIn()`. */
  const DefaultChances: int := 100

  /** The exceptions `generate()` can throw: the five `LogicException`s of `canGenerate()`,
      in the order it checks them, and the `RuntimeException` of a failed write. */
  datatype Failure =
    | OutputMissing
    | AutoloadMissing
    | AutoloadNotFound
    | OpcacheDisabled
    | NoCachedScripts
    | WriteFailed(path: string)

  /** The text of the write failure before the path. */
  const WriteFailurePrefix: string := "Preloader couldn't write the script to ["

  /** The exception message of each failure. The message of a failed write is the fixed prefix,
      the path and `].`, so it names the path exactly. */
  function Message(f: Failure): (r: string)
    ensures f.WriteFailed? ==>
              && |r| == |WriteFailurePrefix| + |f.path| + 2
              && r[..|WriteFailurePrefix|] == WriteFailurePrefix
              && r[|WriteFailurePrefix|..|r| - 2] == f.path
              && r[|r| - 2..] == "]."
  {
    match f
    case OutputMissing => "Cannot proceed without pointing where to output the script."
    case AutoloadMissing => "Cannot proceed without a Composer Autoload."
    case AutoloadNotFound => "Composer Autoload file doesn't exists."
    case OpcacheDisabled => "Opcache is disabled. No preload script can be generated."
    case NoCachedScripts => "Opcache reports 0 cached scripts. No preload will be generated."
    case WriteFailed(path) => WriteFailurePrefix + path + "]."
  }

  /** The precondition checks of `canGenerate()`, in the order they are made. */
  const Checks: seq<Failure> := [OutputMissing, AutoloadMissing, AutoloadNotFound, OpcacheDisabled, NoCachedScripts]

  /** The facts about the environment that `generate()` reads but the model does not compute. */
  datatype Environment = Environment(
    autoloadExists: bool,        // file_exists($autoload)
    shouldWrite: bool,           // shouldWrite(), not defined in the modelled files
    stub: string,                // contents of preload.php.stub
    opcacheConfig: Pairs,        // getOpcacheConfig()
    preloaderConfig: Pairs,      // getPreloaderConfig()
    packageFiles: seq<string>,   // the package's own files found by glob()
    outputPath: string,          // real path of the output file
    generatedAt: string,         // date('Y-m-d H:i:s e')
    autoloadPath: string,        // realpath($autoload)
    eol: string,                 // PHP_EOL
    bytesWritten: Option<nat>)   // file_put_contents(): None stands for false

  /** Whether the check that throws `f` passes. */
  predicate Passes(f: Failure, output: Option<string>, autoload: Option<string>, autoloadExists: bool, opcache: OpcacheStatus)
  {
    match f
    case OutputMissing => OptionTruthy(output)
    case AutoloadMissing => OptionTruthy(autoload)
    case AutoloadNotFound => autoloadExists
    case OpcacheDisabled => opcache.enabled
    case NoCachedScripts => opcache.cachedScripts != 0
    case WriteFailed(_) => true
  }

  /** The argument of `when()`: a value, or a callable together with the value it returns
      (a callable without a `return` returns null). */
  datatype Condition = Plain(value: Value) | Callable(result: Value)

  /** The argument of `append()` and `exclude()`. */
  datatype Files = NoFiles | OneFile(path: string) | FileList(paths: seq<string>)

  /** `(array) $files`: null becomes the empty list, a string a one-element list, a list stays. */
  function AsArray(files: Files): (r: seq<string>)
    ensures files.NoFiles? ==> r == []
    ensures files.OneFile? ==> r == [files.path]
    ensures files.FileList? ==> r == files.paths
  {
    match files
    case NoFiles => []
    case OneFile(path) => [path]
    case FileList(paths) => paths
  }

  class Preloader {
    const compiler: PreloaderCompiler
    const lister: PreloaderLister
    const opcache: OpcacheStatus
    var overwrite: bool
    var output: Option<string>
    var shouldRun: bool

    constructor (compiler: PreloaderCompiler, lister: PreloaderLister, opcache: OpcacheStatus)
      ensures this.compiler == compiler && this.lister == lister && this.opcache == opcache
      ensures !overwrite && output == None && shouldRun
    {
      this.compiler := compiler;
      this.lister := lister;
      this.opcache := opcache;
      overwrite := false;
      output := None;
      shouldRun := true;
    }

    /** `Preloader::make()`: a facade over a new compiler and a new lister sharing `opcache`. */
    static method Make(opcache: OpcacheStatus) returns (p: Preloader)
      ensures fresh(p) && fresh(p.compiler) && fresh(p.lister)
      ensures p.opcache == opcache && p.lister.opcache == opcache
      ensures !p.overwrite && p.output == None && p.shouldRun
      ensures p.compiler.useRequire && p.compiler.autoload == None
      ensures p.lister.memory == 32 && p.lister.append == [] && p.lister.exclude == [] && !p.lister.includePreloader
    {
      var compiler := new PreloaderCompiler();
      var lister := new PreloaderLister(opcache);
      p := new Preloader(compiler, lister, opcache);
    }

    // -------------------------------------------------------------------------
    // Conditions

    /** `when($condition)`: the truthiness of the value, or of what the callable returns. */
    method When(condition: Condition) returns (self: Preloader)
      modifies this`shouldRun
      ensures shouldRun == Truthy(if condition.Callable? then condition.result else condition.value)
      ensures self == this
    {
      var value := if condition.Callable? then condition.result else condition.value;
      shouldRun := Truthy(value);
      self := this;
    }

    /** `whenHits($hits = 200000)`: run while Opcache has fewer hits than `hits`. */
    method WhenHits(hits: int := DefaultHits) returns (self: Preloader)
      modifies this`shouldRun
      ensures shouldRun == (hits > opcache.hits)
      ensures self == this
    {
      self := When(Plain(Bool(hits > opcache.hits)));
    }

    /** `whenOneIn($chances = 100)`: `draw` is the value of `random_int(1, $chances)`, which
        throws when `chances` is below 1; the facade then runs when the draw is half the chances. */
    method WhenOneIn(draw: int, chances: int := DefaultChances) returns (r: Result<Preloader, string>)
      requires chances >= 1 ==> 1 <= draw <= chances
      modifies this`shouldRun
      ensures chances < 1 ==> r.Failure? && shouldRun == old(shouldRun)
      ensures chances >= 1 ==> r == Success(this) && shouldRun == (draw == chances / 2)
      ensures chances == 1 ==> !shouldRun
    {
      if chances < 1 {
        return Failure("random_int(): Argument #1 ($min) must be less than or equal to argument #2 ($max)");
      }
      var self := When(Plain(Bool(draw == chances / 2)));
      r := Success(self);
    }

    // -------------------------------------------------------------------------
    // ManagesFiles and LimitsList

    /** `append($files)`: replaces the lister's appended list. */
    method Append(files: Files) returns (self: Preloader)
      modifies lister`append
      ensures lister.append == AsArray(files)
      ensures self == this
    {
      lister.append := AsArray(files);
      self := this;
    }

    /** `exclude($files)`: replaces the lister's excluded list. */
    method Exclude(files: Files) returns (self: Preloader)
      modifies lister`exclude
      ensures lister.exclude == AsArray(files)
      ensures self == this
    {
      lister.exclude := AsArray(files);
      self := this;
    }

    /** `memory($limit)`: the memory limit in MB; 0 disables it. */
    method Memory(limit: int) returns (self: Preloader)
      modifies lister`memory
      ensures lister.memory == limit
      ensures self == this
    {
      lister.memory := limit;
      self := this;
    }

    // -------------------------------------------------------------------------
    // Setters

    /** `overwrite($overwrite = true)`. */
    method Overwrite(overwrite: bool := true) returns (self: Preloader)
      modifies this`overwrite
      ensures this.overwrite == overwrite
      ensures self == this
    {
      this.overwrite := overwrite;
      self := this;
    }

    /** `autoload($autoload)`: the path of the Composer autoload file, kept by the compiler. */
    method Autoload(autoload: string) returns (self: Preloader)
      modifies compiler`autoload
      ensures compiler.autoload == Some(autoload)
      ensures self == this
    {
      compiler.autoload := Some(autoload);
      self := this;
    }

    /** `output($path)`: the script's location, for the facade and the compiler alike. */
    method Output(path: string) returns (self: Preloader)
      modifies this`output, compiler`output
      ensures output == Some(path) && compiler.output == path
      ensures self == this
    {
      output := Some(path);
      compiler.output := path;
      self := this;
    }

    /** `useCompile()`: load each file with `opcache_compile_file()`. */
    method UseCompile() returns (self: Preloader)
      modifies compiler`useRequire
      ensures !compiler.useRequire
      ensures self == this
    {
      compiler.useRequire := false;
      self := this;
    }

    /** `useRequire()`: load each file with `require_once`. */
    method UseRequire() returns (self: Preloader)
      modifies compiler`useRequire
      ensures compiler.useRequire
      ensures self == this
    {
      compiler.useRequire := true;
      self := this;
    }

    /** `list()`: the list the lister builds. */
    method List(packageFiles: seq<string>) returns (list: seq<string>)
      ensures list == lister.List(packageFiles)
    {
      list := lister.Build(packageFiles);
    }

    // -------------------------------------------------------------------------
    // Generation

    /** `canGenerate()`: the first failing check throws; when all pass, the script is generated
        only if the run condition holds and the file should be written. */
    function CanGenerate(autoloadExists: bool, shouldWrite: bool): (r: Result<bool, Failure>)
      reads this, compiler
      ensures r.Failure? ==>
                exists i :: 0 <= i < |Checks| && r.error == Checks[i]
                  && !Passes(Checks[i], output, compiler.autoload, autoloadExists, opcache)
                  && forall j :: 0 <= j < i ==> Passes(Checks[j], output, compiler.autoload, autoloadExists, opcache)
      ensures r.Success? <==> forall i :: 0 <= i < |Checks| ==> Passes(Checks[i], output, compiler.autoload, autoloadExists, opcache)
      ensures r.Success? ==> r.value == (shouldRun && shouldWrite)
    {
      if !OptionTruthy(output) then
        assert Checks[0] == OutputMissing;
        Failure(OutputMissing)
      else if !OptionTruthy(compiler.autoload) then
        assert Checks[1] == AutoloadMissing;
        Failure(AutoloadMissing)
      else if !autoloadExists then
        assert Checks[2] == AutoloadNotFound;
        Failure(AutoloadNotFound)
      else if !opcache.enabled then
        assert Checks[3] == OpcacheDisabled;
        Failure(OpcacheDisabled)
      else if opcache.cachedScripts == 0 then
        assert Checks[4] == NoCachedScripts;
        Failure(NoCachedScripts)
      else
        Success(shouldRun && shouldWrite)
    }

    /** `generate()`: checks, then fills the compiler and writes the compiled script. `script` is
        the text handed to `file_put_contents()`, if it is reached. */
    method Generate(env: Environment) returns (r: Result<bool, Failure>, script: Option<string>)
      modifies compiler`contents, compiler`opcacheConfig, compiler`preloaderConfig, compiler`list
      ensures var check := old(CanGenerate(env.autoloadExists, env.shouldWrite));
              && (check != Success(true) ==> r == check && script == None && unchanged(compiler))
              && (check == Success(true) ==>
                    && compiler.contents == env.stub
                    && compiler.opcacheConfig == env.opcacheConfig
                    && compiler.preloaderConfig == env.preloaderConfig
                    && compiler.list == lister.List(env.packageFiles)
                    && script == Some(compiler.Compile(env.outputPath, env.generatedAt, env.autoloadPath, env.eol))
                    && r == (if env.bytesWritten == None || env.bytesWritten == Some(0)
                             then Failure(WriteFailed(output.value)) else Success(true)))
    {
      var check := CanGenerate(env.autoloadExists, env.shouldWrite);
      if check != Success(true) {
        return check, None;
      }
      compiler.contents := env.stub;
      compiler.opcacheConfig := env.opcacheConfig;
      compiler.preloaderConfig := env.preloaderConfig;
      var list := List(env.packageFiles);
      compiler.list := list;
      script := Some(compiler.Compile(env.outputPath, env.generatedAt, env.autoloadPath, env.eol));
      if env.bytesWritten == None || env.bytesWritten == Some(0) {
        r := Failure(WriteFailed(output.value));
      } else {
        r := Success(true);
      }
    }
  }
}
