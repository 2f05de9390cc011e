/** A sprite sheet (Willow/Sprites/SpriteSheet.cs): one texture and a
    dictionary of named rectangles on it. */
module SpriteSheets {
  import opened Wrappers

  datatype Rectangle = Rectangle(X: int, Y: int, Width: int, Height: int)

  /** A texture; only whether it has been disposed is modelled. */
  class Texture {
    var disposed: bool

    constructor ()
      ensures !disposed
    {
      disposed := false;
    }

    method Dispose()
      modifies this
      ensures disposed
    {
      disposed := true;
    }
  }

  /** One sprite: its name, its bounds on the sheet and the sheet's texture. */
  class SpriteDefinition {
    var Name: string
    var Bounds: Rectangle
    var Texture: Texture?

    constructor (name: string, bounds: Rectangle, texture: Texture?)
      ensures Name == name && Bounds == bounds && Texture == texture
    {
      Name := name;
      Bounds := bounds;
      Texture := texture;
    }
  }

  /** `Dictionary.Add` of a name already present (ArgumentException), and a
      lookup of a name not present (KeyNotFoundException). */
  datatype SheetError = DuplicateName(name: string) | MissingName(name: string)

  /** The names of the definitions in `list`, in order. */
  ghost function Names(list: seq<SpriteDefinition>): (names: seq<string>)
    reads list
    ensures |names| == |list|
  {
    seq(|list|, k requires 0 <= k < |list| reads list => list[k].Name)
  }

  /** The bounds of the definitions in `list`, in order. */
  ghost function BoundsOf(list: seq<SpriteDefinition>): (bounds: seq<Rectangle>)
    reads list
    ensures |bounds| == |list|
  {
    seq(|list|, k requires 0 <= k < |list| reads list => list[k].Bounds)
  }

  /** `d` is a definition named `name` with bounds `bounds` on `texture`. */
  ghost predicate Defines(d: SpriteDefinition, name: string, bounds: Rectangle, texture: Texture?)
    reads d
  {
    d.Name == name && d.Bounds == bounds && d.Texture == texture
  }

  /** No two of the first `n` names are equal. */
  predicate Distinct(names: seq<string>, n: int)
    requires 0 <= n <= |names|
  {
    forall i, j :: 0 <= i < j < n ==> names[i] != names[j]
  }

  /** The names in `s`, as a set. */
  function NameSet(s: seq<string>): set<string> {
    set n | n in s
  }

  lemma NameSetSnoc(s: seq<string>, x: string)
    ensures NameSet(s + [x]) == NameSet(s) + {x}
  {
    assert forall n :: n in s + [x] <==> n in s || n == x;
  }

  lemma DistinctSnoc(names: seq<string>, n: int)
    requires 0 <= n < |names| && Distinct(names, n) && names[n] !in names[..n]
    ensures Distinct(names, n + 1)
  {
    forall i, j | 0 <= i < j < n + 1
      ensures names[i] != names[j]
    {
      if j == n {
        assert names[i] == names[..n][i];
      }
    }
  }

  /** Name `k` is the first that repeats an earlier one. */
  predicate FirstRepeat(names: seq<string>, k: int) {
    0 <= k < |names| && Distinct(names, k) && names[k] in names[..k]
  }

  /** The names are all distinct exactly when none repeats an earlier one. */
  lemma RepeatOrDistinct(names: seq<string>)
    ensures Distinct(names, |names|) <==> !exists k :: FirstRepeat(names, k)
  {
    if !Distinct(names, |names|) {
      var k := FirstRepeatExists(names, |names|);
    }
  }

  /** There is at most one first repeat, so a failed load names a single
      definition. */
  lemma FirstRepeatUnique(names: seq<string>, k: int, k': int)
    requires FirstRepeat(names, k) && FirstRepeat(names, k')
    ensures k == k'
  {
  }

  /** Among names that are not all distinct, the first repeat. */
  lemma {:induction false} FirstRepeatExists(names: seq<string>, n: int) returns (k: int)
    requires 0 <= n <= |names| && !Distinct(names, n)
    ensures FirstRepeat(names, k) && k < n
  {
    if Distinct(names, n - 1) {
      var i, j :| 0 <= i < j < n && names[i] == names[j];
      assert j == n - 1;
      assert names[i] == names[..n - 1][i];
      k := n - 1;
    } else {
      k := FirstRepeatExists(names, n - 1);
    }
  }

  /** `m` holds, under each of the first `i` names (all distinct), a
      definition with that name, the matching bounds and `texture`, and
      nothing else. */
  ghost predicate LoadedMap(m: map<string, SpriteDefinition>, names: seq<string>, bounds: seq<Rectangle>,
                            i: int, texture: Texture?)
    reads m.Values
  {
    && 0 <= i <= |names| && |bounds| == |names|
    && Distinct(names, i)
    && m.Keys == NameSet(names[..i])
    && forall k :: 0 <= k < i ==> Defines(m[names[k]], names[k], bounds[k], texture)
  }

  /** Adding the next definition extends a loaded prefix by one. */
  lemma LoadedStep(m: map<string, SpriteDefinition>, d: SpriteDefinition, names: seq<string>, bounds: seq<Rectangle>,
                   i: int, texture: Texture?)
    requires LoadedMap(m, names, bounds, i, texture) && i < |names|
    requires names[i] !in m && Defines(d, names[i], bounds[i], texture)
    ensures LoadedMap(m[names[i] := d], names, bounds, i + 1, texture)
  {
    assert names[i] !in NameSet(names[..i]);
    DistinctSnoc(names, i);
    assert names[..i + 1] == names[..i] + [names[i]];
    NameSetSnoc(names[..i], names[i]);
    forall k | 0 <= k < i
      ensures Defines(m[names[i] := d][names[k]], names[k], bounds[k], texture)
    {
      assert names[k] != names[i];
    }
  }

  class SpriteSheet {
    var texture: Texture?
    var sprites: map<string, SpriteDefinition>

    constructor ()
      ensures texture == null && sprites == map[]
    {
      texture := null;
      sprites := map[];
    }

    /** The indexer: the definition registered as `name`, and an error for a
        name the sheet does not hold. */
    function Get(name: string): (r: Result<SpriteDefinition, SheetError>)
      reads this
      ensures r.Ok? <==> name in sprites
      ensures r.Ok? ==> r.value == sprites[name]
      ensures r.Err? ==> r.error == MissingName(name)
    {
      if name in sprites then Ok(sprites[name]) else Err(MissingName(name))
    }

    /** Takes `texture` and replaces the dictionary by fresh copies of the
        definitions in `list`, each pointing at `texture`. A repeated name
        stops the load at that definition with an error, keeping the
        definitions before it. */
    method Load(texture: Texture?, list: seq<SpriteDefinition>) returns (r: Outcome<SheetError>)
      modifies this
      ensures this.texture == texture
      ensures var names := old(Names(list));
        && (r.Pass? <==> Distinct(names, |names|))
        && (r.Pass? ==> sprites.Keys == NameSet(names))
        && (r.Fail? ==> exists k :: (FirstRepeat(names, k) && r.error == DuplicateName(names[k])
                                     && sprites.Keys == NameSet(names[..k])
                                     && LoadedMap(sprites, names, old(BoundsOf(list)), k, texture)))
      ensures forall n :: n in sprites ==> fresh(sprites[n])
      ensures r.Pass? ==> forall i :: 0 <= i < |list| ==>
        Defines(sprites[old(Names(list))[i]], old(Names(list))[i], old(BoundsOf(list))[i], texture)
    {
      ghost var names, bounds := Names(list), BoundsOf(list);
      this.texture := texture;
      sprites := map[];
      var i := 0;
      while i < |list|
        invariant this.texture == texture
        invariant LoadedMap(sprites, names, bounds, i, texture)
        invariant forall n :: n in sprites ==> fresh(sprites[n])
      {
        var sprite := list[i];
        assert sprite.Name == names[i] && sprite.Bounds == bounds[i];
        ghost var before := sprites;
        r := Add(sprite.Name, sprite.Bounds, texture);
        if r.Fail? {
          assert FirstRepeat(names, i);
          return;
        }
        LoadedStep(before, sprites[names[i]], names, bounds, i, texture);
        i := i + 1;
      }
      assert names[..i] == names;
      r := Pass;
    }

    /** `Dictionary.Add` of a fresh definition: an error, changing nothing,
        when `name` is already present. */
    method Add(name: string, bounds: Rectangle, texture: Texture?) returns (r: Outcome<SheetError>)
      modifies this
      ensures r.Fail? <==> name in old(sprites)
      ensures r.Fail? ==> r.error == DuplicateName(name) && sprites == old(sprites)
      ensures r.Pass? ==> && name in sprites && fresh(sprites[name])
                          && sprites == old(sprites)[name := sprites[name]]
                          && Defines(sprites[name], name, bounds, texture)
      ensures this.texture == old(this.texture)
    {
      if name in sprites {
        return Fail(DuplicateName(name));
      }
      var d := new SpriteDefinition(name, bounds, texture);
      sprites := sprites[name := d];
      return Pass;
    }

    /** Disposes the texture, if any, and forgets it. A second call finds no
        texture and changes nothing. The definitions keep their reference to
        the disposed texture. */
    method Dispose()
      modifies this, texture
      ensures texture == null && sprites == old(sprites)
      ensures old(texture) != null ==> old(texture).disposed
      ensures old(texture) == null ==> unchanged(this)
    {
      if texture != null {
        texture.Dispose();
      }
      texture := null;
    }
  }
}
