/** A linked GL shader program and its cache of uniform locations: `attach` makes the program
    current only when it is not already, `set` looks a uniform's location up once per name and
    hands it to the uploading GL call, and assignment moves the program from one `Shader` to
    another. The GL context the program runs in is modelled by the state these calls read and
    change. */
module Shaders {
  /** a uniform location as `glGetUniformLocation` reports it: -1 for a name the program does not
      use */
  type Location = int

  /** `glGetUniformLocation` of a linked program: a fixed answer for each program and name */
  type Locator = (nat, string) -> Location

  /** the GL context as the shader sees it: the current program (`GL_CURRENT_PROGRAM`), and the
      calls made so far that reach the driver — the programs passed to `glUseProgram`, the
      location queries and the locations handed to the uploading `glUniform*` calls */
  class Context {
    var currentProgram: nat
    var useProgramCalls: seq<nat>
    var locationQueries: seq<(nat, string)>
    var uploads: seq<Location>

    /** a context where no program is current and nothing has been called yet */
    constructor ()
      ensures currentProgram == 0 && useProgramCalls == [] && locationQueries == [] && uploads == []
    {
      currentProgram := 0;
      useProgramCalls := [];
      locationQueries := [];
      uploads := [];
    }

    /** `glUseProgram` */
    method UseProgram(program: nat)
      modifies this
      ensures currentProgram == program && useProgramCalls == old(useProgramCalls) + [program]
      ensures locationQueries == old(locationQueries) && uploads == old(uploads)
    {
      currentProgram := program;
      useProgramCalls := useProgramCalls + [program];
    }

    /** `glGetUniformLocation`, answered by `locate` */
    method GetUniformLocation(program: nat, name: string, locate: Locator) returns (location: Location)
      modifies this
      ensures location == locate(program, name)
      ensures locationQueries == old(locationQueries) + [(program, name)]
      ensures currentProgram == old(currentProgram) && useProgramCalls == old(useProgramCalls) && uploads == old(uploads)
    {
      location := locate(program, name);
      locationQueries := locationQueries + [(program, name)];
    }

    /** the `glUniform*` function `set` is given, called with the location (its values are left
        out) */
    method Upload(location: Location)
      modifies this
      ensures uploads == old(uploads) + [location]
      ensures currentProgram == old(currentProgram) && useProgramCalls == old(useProgramCalls) && locationQueries == old(locationQueries)
    {
      uploads := uploads + [location];
    }
  }

  // ---------------------------------------------------------------------------
  // The uniform cache
  // ---------------------------------------------------------------------------

  /** what `set` uses for `name`, and the cache it leaves behind: the cached location on a hit
      with the cache as it was; on a miss the queried location, which is cached under `name` even
      when it is -1 */
  function Resolve(uniforms: map<string, Location>, program: nat, name: string, locate: Locator): (r: (Location, map<string, Location>))
    ensures name in r.1 && r.1[name] == r.0
    ensures name in uniforms ==> r == (uniforms[name], uniforms)
    ensures name !in uniforms ==> r.0 == locate(program, name)
    ensures r.1.Keys == uniforms.Keys + {name}
    ensures forall other | other in uniforms && other != name :: r.1[other] == uniforms[other]
  {
    if name in uniforms then (uniforms[name], uniforms)
    else
      var location := locate(program, name);
      (location, uniforms[name := location])
  }

  /** every cached location is the one the program would report */
  ghost predicate CacheAgrees(uniforms: map<string, Location>, program: nat, locate: Locator) {
    forall name | name in uniforms :: uniforms[name] == locate(program, name)
  }

  /** the cache is invisible: while it agrees with the program, `set` uses exactly the location a
      fresh query would give, and the cache still agrees afterwards */
  lemma CacheIsTransparent(uniforms: map<string, Location>, program: nat, name: string, locate: Locator)
    requires CacheAgrees(uniforms, program, locate)
    ensures Resolve(uniforms, program, name, locate).0 == locate(program, name)
    ensures CacheAgrees(Resolve(uniforms, program, name, locate).1, program, locate)
  {
    var r := Resolve(uniforms, program, name, locate);
    forall other | other in r.1
      ensures r.1[other] == locate(program, other)
    {
      if other != name {
        assert other in uniforms;
      }
    }
  }

  /** looking the same name up again hits: the same location, and the cache does not change */
  lemma ResolveTwiceHits(uniforms: map<string, Location>, program: nat, name: string, locate: Locator)
    ensures var first := Resolve(uniforms, program, name, locate);
      Resolve(first.1, program, name, locate) == first
  {
  }


  /** the GL calls `attach` makes when `current` is the context's program: none when it is the
      shader's own program, one `glUseProgram` otherwise */
  function AttachCalls(current: nat, program: nat): (calls: seq<nat>)
    ensures |calls| <= 1
    ensures calls == [] <==> current == program
    ensures forall p | p in calls :: p == program
  {
    if current == program then [] else [program]
  }

  /** two `attach` calls in a row switch the program at most once: after the first the program is
      current, so the second calls nothing */
  lemma AttachTwiceSwitchesOnce(current: nat, program: nat)
    ensures var after := if AttachCalls(current, program) == [] then current else program;
      after == program && AttachCalls(after, program) == []
      && |AttachCalls(current, program) + AttachCalls(after, program)| <= 1
  {
  }

  // ---------------------------------------------------------------------------
  // Shader
  // ---------------------------------------------------------------------------

  class Shader {
    var programID: nat
    var uniforms: map<string, Location>

    /** the default constructor: no program and an empty cache */
    constructor ()
      ensures programID == 0 && uniforms == map[]
    {
      programID := 0;
      uniforms := map[];
    }

    /** the constructor `fromFiles` uses: a linked program and the uniform locations it found */
    constructor FromProgram(programID: nat, uniforms: map<string, Location>)
      ensures this.programID == programID && this.uniforms == uniforms
    {
      this.programID := programID;
      this.uniforms := uniforms;
    }

    /** `attach`: reads the current program and calls `glUseProgram` only when it differs from
        this shader's */
    method Attach(gl: Context)
      modifies gl
      ensures gl.currentProgram == programID
      ensures gl.useProgramCalls == old(gl.useProgramCalls) + AttachCalls(old(gl.currentProgram), programID)
      ensures gl.locationQueries == old(gl.locationQueries) && gl.uploads == old(gl.uploads)
    {
      var activeProgram := gl.currentProgram;
      if activeProgram != programID {
        gl.UseProgram(programID);
      }
    }

    /** `set(uniform, function, args...)`: attaches the program, finds the uniform's location
        through the cache — querying the driver only on a miss — and calls the uploading
        function with it */
    method Set(name: string, gl: Context, locate: Locator)
      modifies this, gl
      ensures programID == old(programID)
      ensures var r := Resolve(old(uniforms), programID, name, locate);
        && uniforms == r.1
        && gl.uploads == old(gl.uploads) + [r.0]
      ensures gl.locationQueries == old(gl.locationQueries) + (if name in old(uniforms) then [] else [(programID, name)])
      ensures gl.currentProgram == programID
      ensures gl.useProgramCalls == old(gl.useProgramCalls) + AttachCalls(old(gl.currentProgram), programID)
    {
      Attach(gl);
      var location := -1;
      if name !in uniforms {
        location := gl.GetUniformLocation(programID, name, locate);
        uniforms := uniforms[name := location];
      } else {
        location := uniforms[name];
      }
      gl.Upload(location);
    }

    /** `operator=` as written: takes `rhs`'s program and uniforms and zeroes `rhs`'s program so
        that only one destructor deletes it; when `rhs` is this shader itself, the zeroing
        happens last and the shader is left without its program */
    method Assign(rhs: Shader)
      modifies this, rhs
      ensures rhs != this ==> programID == old(rhs.programID) && uniforms == old(rhs.uniforms) && rhs.programID == 0
      ensures rhs == this ==> programID == 0 && uniforms == old(uniforms)
    {
      programID := rhs.programID;
      rhs.programID := 0;
      uniforms := rhs.uniforms;
    }

    /** the assignment with a self-assignment check: the assigned shader always ends up with
        `rhs`'s program and uniforms, and a distinct `rhs` gives its program up */
    method AssignChecked(rhs: Shader)
      modifies this, rhs
      ensures programID == old(rhs.programID) && uniforms == old(rhs.uniforms)
      ensures rhs != this ==> rhs.programID == 0
    {
      if rhs != this {
        programID := rhs.programID;
        rhs.programID := 0;
        uniforms := rhs.uniforms;
      }
    }
  }

  /** `detach`: no program is current afterwards */
  method Detach(gl: Context)
    modifies gl
    ensures gl.currentProgram == 0 && gl.useProgramCalls == old(gl.useProgramCalls) + [0]
    ensures gl.locationQueries == old(gl.locationQueries) && gl.uploads == old(gl.uploads)
  {
    gl.UseProgram(0);
  }

  /** self-assignment through `operator=` as written loses the program: a shader owning program 5
      assigned to itself owns no program afterwards, where the checked assignment keeps it */
  method SelfAssignmentLosesProgram() returns (asWritten: nat, checked: nat)
    ensures asWritten == 0 && checked == 5
  {
    var s := new Shader.FromProgram(5, map[]);
    s.Assign(s);
    asWritten := s.programID;
    var t := new Shader.FromProgram(5, map[]);
    t.AssignChecked(t);
    checked := t.programID;
  }
}
