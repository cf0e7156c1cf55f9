/** The scene registry of the application: the parallel lists of OBJ models,
    their instances and the textures they use, appended in place while models
    are loaded; the placeholders that keep the shaders' descriptor arrays
    non-empty; the layout of the scene descriptor set and the writes that fill
    it. Device buffers come from an `Allocator`; the OBJ parser and the image
    decoder are foreign code whose results are parameters. */
module Scene {
  import opened Common
  import opened Vk

  /** `ObjModel`: index and vertex counts and the four device buffers of one OBJ. */
  datatype ObjModel = ObjModel(nbIndices: nat, nbVertices: nat, vertexBuffer: Buffer, indexBuffer: Buffer,
                               matColorBuffer: Buffer, matIndexBuffer: Buffer)

  /** `ObjInstance`: the model it draws, where its textures start in the
      texture list, and its placement. The inverse transpose the source also
      stores is derived from `transform` and is not modelled. */
  datatype ObjInstance = ObjInstance(objIndex: nat, txtOffset: nat, transform: Mat4)

  /** What the OBJ loader yields that the registry keeps: counts and the
      texture file names the materials refer to. */
  datatype ObjData = ObjData(nbIndices: nat, nbVertices: nat, textureNames: seq<string>)

  /** A decoded image. The decoder is always asked for four channels. */
  datatype Image = Image(width: nat, height: nat, pixels: seq<Byte>)

  predicate RgbaImage(img: Image) {
    |img.pixels| == img.width * img.height * 4
  }

  /** The scene state: models, instances and textures. */
  datatype SceneState = SceneState(models: seq<ObjModel>, instances: seq<ObjInstance>, textures: seq<Texture>)

  /** The 1×1 opaque white placeholder texture. */
  const WhiteTexture: Texture := Texture(1, 1, R8G8B8A8Srgb, 1, [255, 255, 255, 255])

  /** The 1×1 magenta texture that replaces an image that fails to load. */
  const MagentaTexture: Texture := Texture(1, 1, R8G8B8A8Srgb, 1, [255, 0, 255, 255])

  /** The staging size of a texture upload: four bytes per texel. */
  function UploadSize(t: Texture): nat {
    t.width * t.height * 4
  }

  /** The texture made from the decoder's result for one file: the decoded
      image, or the magenta texel when decoding failed. Either way exactly
      `UploadSize` bytes are uploaded. */
  function MakeTexture(loaded: Option<Image>): (t: Texture)
    ensures t.format == R8G8B8A8Srgb && t.layers == 1
    ensures loaded.None? ==> t == MagentaTexture && t.width == 1 && t.height == 1
    ensures loaded.Some? ==> t.width == loaded.value.width && t.height == loaded.value.height
                             && t.data == loaded.value.pixels
    ensures (loaded.None? || RgbaImage(loaded.value)) ==> |t.data| == UploadSize(t)
  {
    match loaded
    case None => MagentaTexture
    case Some(img) => Texture(img.width, img.height, R8G8B8A8Srgb, 1, img.pixels)
  }

  /** One texture per name, in order, each from what `load` decodes for it. */
  function LoadAll(names: seq<string>, load: string -> Option<Image>): (r: seq<Texture>)
    ensures |r| == |names|
    ensures forall i :: 0 <= i < |names| ==> r[i] == MakeTexture(load(names[i]))
  {
    if names == [] then []
    else LoadAll(names[..|names| - 1], load) + [MakeTexture(load(names[|names| - 1]))]
  }

  /** The texture list after `createTextureImages`: a single placeholder when
      there is neither a name nor an existing texture, otherwise one texture
      per name appended in order. */
  function TexturesAfter(existing: seq<Texture>, names: seq<string>, load: string -> Option<Image>): seq<Texture>
  {
    if names == [] && existing == [] then [WhiteTexture]
    else existing + LoadAll(names, load)
  }

  lemma TexturesAfterAppends(existing: seq<Texture>, names: seq<string>, load: string -> Option<Image>)
    ensures var r := TexturesAfter(existing, names, load);
      |r| == |existing| + (if names == [] && existing == [] then 1 else |names|)
      && r[..|existing|] == existing
      && (forall i :: 0 <= i < |names| ==> r[|existing| + i] == MakeTexture(load(names[i])))
      && (names == [] && existing == [] ==> r == [WhiteTexture])
      && |r| > 0
  {
  }

  /** Every instance draws the model at its own position and its textures
      start within the texture list; models and instances are parallel; there
      is a texture exactly when there is a model. */
  predicate Consistent(st: SceneState) {
    |st.instances| == |st.models|
    && (forall i :: 0 <= i < |st.instances| ==>
          st.instances[i].objIndex == i && st.instances[i].txtOffset <= |st.textures|)
    && (|st.models| == 0 <==> |st.textures| == 0)
  }

  /** The state after `loadModel`: the instance, which points at the model
      about to be appended and at the first texture about to be loaded, the
      model, and the model's textures. */
  function AddModel(st: SceneState, model: ObjModel, transform: Mat4, names: seq<string>,
                    load: string -> Option<Image>): SceneState
  {
    SceneState(st.models + [model],
               st.instances + [ObjInstance(|st.models|, |st.textures|, transform)],
               TexturesAfter(st.textures, names, load))
  }

  /** The state after the placeholder branch of `createSceneDescriptionBuffer`:
      one instance of one empty model with the identity transform, and one
      white texture. */
  function AddDummy(st: SceneState, model: ObjModel): SceneState
  {
    SceneState(st.models + [model],
               st.instances + [ObjInstance(|st.models|, |st.textures|, Identity)],
               st.textures + [WhiteTexture])
  }

  /** `createSceneDescriptionBuffer` on the lists: the placeholder is added
      only when there is no instance. */
  function WithSceneDescription(st: SceneState, dummy: ObjModel): (r: SceneState)
    ensures |r.instances| > 0
    ensures |st.instances| > 0 ==> r == st
  {
    if |st.instances| == 0 then AddDummy(st, dummy) else st
  }

  lemma AddModelConsistent(st: SceneState, model: ObjModel, transform: Mat4, names: seq<string>,
                           load: string -> Option<Image>)
    requires Consistent(st)
    ensures var r := AddModel(st, model, transform, names, load);
      Consistent(r) && r.instances[|st.models|].objIndex == |st.models|
      && r.instances[|st.models|].txtOffset == |st.textures|
      && |r.models| == |st.models| + 1 && |r.instances| == |st.instances| + 1
  {
    TexturesAfterAppends(st.textures, names, load);
  }

  lemma AddDummyConsistent(st: SceneState, model: ObjModel)
    requires Consistent(st)
    ensures var r := AddDummy(st, model);
      Consistent(r) && |r.models| == |st.models| + 1 && |r.textures| == |st.textures| + 1
      && r.models[|st.models|] == model && r.textures[|st.textures|] == WhiteTexture
      && r.instances[|st.instances|].objIndex == |st.models|
      && r.instances[|st.instances|].txtOffset == |st.textures|
      && r.instances[|st.instances|].transform == Identity
  {
  }

  // ---------------------------------------------------------------------------
  // Scene descriptor set

  /** `max(1, n)`: descriptor arrays are never declared empty. */
  function AtLeastOne(n: nat): (r: nat)
    ensures r >= 1 && r >= n && (n >= 1 ==> r == n)
  {
    if n < 1 then 1 else n
  }

  /** `createDescriptorSetLayout`: bindings 0 to 8 in order; the texture array
      (3) is sized by the texture count, the per-model arrays (1, 4, 5, 6) by
      the model count, never below one. */
  function SceneLayout(nbTextures: nat, nbModels: nat): (r: seq<LayoutBinding>)
    ensures |r| == 9 && DistinctBindings(r)
    ensures forall i :: 0 <= i < 9 ==> r[i].binding == i
    ensures r[3].count == AtLeastOne(nbTextures)
    ensures r[1].count == r[4].count == r[5].count == r[6].count == AtLeastOne(nbModels)
    ensures r[0].count == r[2].count == r[7].count == r[8].count == 1
  {
    var nbTxt := AtLeastOne(nbTextures);
    var nbObj := AtLeastOne(nbModels);
    [ LayoutBinding(0, UniformBuffer, 1, {VertexStage, RaygenStage}),
      LayoutBinding(1, StorageBuffer, nbObj, {VertexStage, FragmentStage, ClosestHitStage}),
      LayoutBinding(2, StorageBuffer, 1, {VertexStage, FragmentStage, ClosestHitStage}),
      LayoutBinding(3, CombinedImageSampler, nbTxt, {FragmentStage, ClosestHitStage}),
      LayoutBinding(4, StorageBuffer, nbObj, {FragmentStage, ClosestHitStage}),
      LayoutBinding(5, StorageBuffer, nbObj, {ClosestHitStage}),
      LayoutBinding(6, StorageBuffer, nbObj, {ClosestHitStage}),
      LayoutBinding(7, StorageBuffer, 1, {ClosestHitStage, IntersectionStage}),
      LayoutBinding(8, CombinedImageSampler, 1, {MissStage, ClosestHitStage}) ]
  }

  /** Which of a model's buffers a per-model binding holds. */
  datatype ModelBuffer = MatColor | MatIndex | Vertices | Indices

  function Pick(m: ObjModel, which: ModelBuffer): Buffer {
    match which
    case MatColor => m.matColorBuffer
    case MatIndex => m.matIndexBuffer
    case Vertices => m.vertexBuffer
    case Indices => m.indexBuffer
  }

  /** One descriptor per model, in model order. */
  function ModelResources(models: seq<ObjModel>, which: ModelBuffer): (r: seq<Resource>)
    ensures |r| == |models|
    ensures forall i :: 0 <= i < |models| ==> r[i] == BufferRes(Pick(models[i], which))
  {
    if models == [] then []
    else ModelResources(models[..|models| - 1], which) + [BufferRes(Pick(models[|models| - 1], which))]
  }

  /** One descriptor per texture, in texture order. */
  function TextureResources(textures: seq<Texture>): (r: seq<Resource>)
    ensures |r| == |textures|
    ensures forall i :: 0 <= i < |textures| ==> r[i] == TextureRes(textures[i])
  {
    if textures == [] then []
    else TextureResources(textures[..|textures| - 1]) + [TextureRes(textures[|textures| - 1])]
  }

  /** The loop of `updateDescriptorSet` over the models: one descriptor per
      model for each of the four per-model buffers, in model order. */
  method GatherModelBuffers(models: seq<ObjModel>)
    returns (dbiMat: seq<Resource>, dbiMatIdx: seq<Resource>, dbiVert: seq<Resource>, dbiIdx: seq<Resource>)
    ensures dbiMat == ModelResources(models, MatColor) && dbiMatIdx == ModelResources(models, MatIndex)
    ensures dbiVert == ModelResources(models, Vertices) && dbiIdx == ModelResources(models, Indices)
  {
    dbiMat, dbiMatIdx, dbiVert, dbiIdx := [], [], [], [];
    for i := 0 to |models|
      invariant |dbiMat| == |dbiMatIdx| == |dbiVert| == |dbiIdx| == i
      invariant forall j :: 0 <= j < i ==> dbiMat[j] == BufferRes(Pick(models[j], MatColor))
      invariant forall j :: 0 <= j < i ==> dbiMatIdx[j] == BufferRes(Pick(models[j], MatIndex))
      invariant forall j :: 0 <= j < i ==> dbiVert[j] == BufferRes(Pick(models[j], Vertices))
      invariant forall j :: 0 <= j < i ==> dbiIdx[j] == BufferRes(Pick(models[j], Indices))
    {
      var obj := models[i];
      dbiMat := dbiMat + [BufferRes(obj.matColorBuffer)];
      dbiMatIdx := dbiMatIdx + [BufferRes(obj.matIndexBuffer)];
      dbiVert := dbiVert + [BufferRes(obj.vertexBuffer)];
      dbiIdx := dbiIdx + [BufferRes(obj.indexBuffer)];
    }
  }

  /** The loop of `updateDescriptorSet` over the textures: one image
      descriptor per texture, in texture order. */
  method GatherTextures(textures: seq<Texture>) returns (diit: seq<Resource>)
    ensures diit == TextureResources(textures)
  {
    diit := [];
    for i := 0 to |textures|
      invariant |diit| == i
      invariant forall j :: 0 <= j < i ==> diit[j] == TextureRes(textures[j])
    {
      diit := diit + [TextureRes(textures[i])];
    }
  }

  /** The writes of `updateDescriptorSet`, in the order it issues them. */
  function SceneWrites(st: SceneState, cameraMat: Buffer, sceneDesc: Buffer, skybox: Texture,
                       spheres: Buffer): seq<Write>
  {
    [ Write(0, UniformBuffer, [BufferRes(cameraMat)]),
      Write(2, StorageBuffer, [BufferRes(sceneDesc)]),
      Write(1, StorageBuffer, ModelResources(st.models, MatColor)),
      Write(4, StorageBuffer, ModelResources(st.models, MatIndex)),
      Write(5, StorageBuffer, ModelResources(st.models, Vertices)),
      Write(6, StorageBuffer, ModelResources(st.models, Indices)),
      Write(3, CombinedImageSampler, TextureResources(st.textures)),
      Write(8, CombinedImageSampler, [TextureRes(skybox)]),
      Write(7, StorageBuffer, [BufferRes(spheres)]) ]
  }

  /** Once there is a model, every write fills a declared binding of its type
      with exactly as many descriptors as the layout sized from the current
      lists declares. */
  lemma SceneWritesMatchLayout(st: SceneState, cameraMat: Buffer, sceneDesc: Buffer, skybox: Texture,
                               spheres: Buffer)
    requires Consistent(st) && |st.models| > 0
    ensures forall w :: w in SceneWrites(st, cameraMat, sceneDesc, skybox, spheres) ==>
              WriteMatches(SceneLayout(|st.textures|, |st.models|), w)
  {
    var layout := SceneLayout(|st.textures|, |st.models|);
    var writes := SceneWrites(st, cameraMat, sceneDesc, skybox, spheres);
    forall k | 0 <= k < |writes|
      ensures WriteMatches(layout, writes[k])
    {
      var b := writes[k].binding;
      assert layout[b].binding == b;
    }
  }

  /** The start-up order: models are loaded, the layout is declared from the
      counts at that moment, the scene description buffer is created (adding
      the placeholder when nothing was loaded), then the set is written. The
      writes fit the layout declared before the placeholder was added, whether
      or not any model was loaded. */
  lemma StartupWritesMatchLayout(st: SceneState, dummy: ObjModel, cameraMat: Buffer, sceneDesc: Buffer,
                                 skybox: Texture, spheres: Buffer)
    requires Consistent(st)
    ensures var after := WithSceneDescription(st, dummy);
      Consistent(after)
      && forall w :: w in SceneWrites(after, cameraMat, sceneDesc, skybox, spheres) ==>
           WriteMatches(SceneLayout(|st.textures|, |st.models|), w)
  {
    var after := WithSceneDescription(st, dummy);
    if |st.instances| == 0 {
      AddDummyConsistent(st, dummy);
      assert |after.models| == 1 && |after.textures| == 1;
    }
    assert SceneLayout(|st.textures|, |st.models|) == SceneLayout(|after.textures|, |after.models|);
    SceneWritesMatchLayout(after, cameraMat, sceneDesc, skybox, spheres);
  }

  /** The scene description buffer and the instance list uploaded to it. */
  datatype SceneDesc = SceneDesc(buffer: Buffer, contents: seq<ObjInstance>)

  /** The members of the application that hold the scene. */
  class Registry {
    var objModel: seq<ObjModel>
    var objInstance: seq<ObjInstance>
    var textures: seq<Texture>
    var sceneDesc: Option<SceneDesc>

    function State(): SceneState
      reads this
    {
      SceneState(objModel, objInstance, textures)
    }

    ghost predicate Valid()
      reads this
    {
      Consistent(State())
    }

    constructor()
      ensures Valid()
      ensures State() == SceneState([], [], []) && sceneDesc == None
    {
      objModel, objInstance, textures := [], [], [];
      sceneDesc := None;
    }

    /** `createTextureImages`: appends the placeholder, or one texture per
        name (the magenta texel for a name `load` cannot decode). */
    method CreateTextureImages(names: seq<string>, load: string -> Option<Image>)
      modifies this`textures
      ensures textures == TexturesAfter(old(textures), names, load)
    {
      if names == [] && textures == [] {
        textures := textures + [WhiteTexture];
      } else {
        ghost var start := textures;
        for i := 0 to |names|
          invariant textures == start + LoadAll(names[..i], load)
        {
          var loaded := load(names[i]);
          var texture := MakeTexture(loaded);
          assert names[..i + 1][..i] == names[..i];
          textures := textures + [texture];
        }
        assert names[..|names|] == names;
      }
    }

    /** `loadModel`: the instance records the model count and the texture
        count before anything is appended; the model's four buffers are made
        (vertices, indices, material colours, material indices); its textures
        are loaded; then model and instance are appended. */
    method LoadModel(alloc: Allocator, loaded: ObjData, transform: Mat4, load: string -> Option<Image>)
      requires Valid()
      modifies this`objModel, this`objInstance, this`textures, alloc`created
      ensures Valid()
      ensures var n := |old(alloc.created)|;
        var model := ObjModel(loaded.nbIndices, loaded.nbVertices, Buffer(n), Buffer(n + 1), Buffer(n + 2), Buffer(n + 3));
        State() == AddModel(old(State()), model, transform, loaded.textureNames, load)
        && alloc.created == old(alloc.created) + [Buffer(n), Buffer(n + 1), Buffer(n + 2), Buffer(n + 3)]
    {
      var instance := ObjInstance(|objModel|, |textures|, transform);
      var vertexBuffer := alloc.CreateBuffer();
      var indexBuffer := alloc.CreateBuffer();
      var matColorBuffer := alloc.CreateBuffer();
      var matIndexBuffer := alloc.CreateBuffer();
      var model := ObjModel(loaded.nbIndices, loaded.nbVertices, vertexBuffer, indexBuffer, matColorBuffer, matIndexBuffer);
      CreateTextureImages(loaded.textureNames, load);
      objModel := objModel + [model];
      objInstance := objInstance + [instance];
      AddModelConsistent(old(State()), model, transform, loaded.textureNames, load);
    }

    /** `createSceneDescriptionBuffer`: with no instance, appends a placeholder
        instance, an empty model with four one-element buffers, and a white
        texture; then uploads the instance list to a new buffer. */
    method CreateSceneDescriptionBuffer(alloc: Allocator)
      requires Valid()
      modifies this`objModel, this`objInstance, this`textures, this`sceneDesc, alloc`created
      ensures Valid()
      ensures |objInstance| > 0
      ensures var n := |old(alloc.created)|;
        if |old(objInstance)| == 0 then
          State() == AddDummy(old(State()), ObjModel(0, 0, Buffer(n), Buffer(n + 1), Buffer(n + 2), Buffer(n + 3)))
          && alloc.created == old(alloc.created) + [Buffer(n), Buffer(n + 1), Buffer(n + 2), Buffer(n + 3), Buffer(n + 4)]
          && sceneDesc == Some(SceneDesc(Buffer(n + 4), objInstance))
        else
          State() == old(State())
          && alloc.created == old(alloc.created) + [Buffer(n)]
          && sceneDesc == Some(SceneDesc(Buffer(n), objInstance))
    {
      if objInstance == [] {
        var instance := ObjInstance(|objModel|, |textures|, Identity);
        objInstance := objInstance + [instance];
        var vertexBuffer := alloc.CreateBuffer();
        var indexBuffer := alloc.CreateBuffer();
        var matColorBuffer := alloc.CreateBuffer();
        var matIndexBuffer := alloc.CreateBuffer();
        var model := ObjModel(0, 0, vertexBuffer, indexBuffer, matColorBuffer, matIndexBuffer);
        objModel := objModel + [model];
        textures := textures + [WhiteTexture];
        AddDummyConsistent(old(State()), model);
      }
      var buffer := alloc.CreateBuffer();
      sceneDesc := Some(SceneDesc(buffer, objInstance));
    }

    /** `updateDescriptorSet`: the camera and scene-description buffers, the
        four per-model buffer arrays gathered model by model, the textures, the
        skybox and the sphere buffer. */
    method UpdateDescriptorSet(cameraMat: Buffer, skybox: Texture, spheres: Buffer) returns (writes: seq<Write>)
      requires sceneDesc.Some?
      ensures writes == SceneWrites(State(), cameraMat, sceneDesc.value.buffer, skybox, spheres)
    {
      writes := [Write(0, UniformBuffer, [BufferRes(cameraMat)])];
      writes := writes + [Write(2, StorageBuffer, [BufferRes(sceneDesc.value.buffer)])];

      var dbiMat, dbiMatIdx, dbiVert, dbiIdx := GatherModelBuffers(objModel);
      writes := writes + [Write(1, StorageBuffer, dbiMat), Write(4, StorageBuffer, dbiMatIdx),
                          Write(5, StorageBuffer, dbiVert), Write(6, StorageBuffer, dbiIdx)];
      var diit := GatherTextures(textures);
      writes := writes + [Write(3, CombinedImageSampler, diit)];
      writes := writes + [Write(8, CombinedImageSampler, [TextureRes(skybox)])];
      writes := writes + [Write(7, StorageBuffer, [BufferRes(spheres)])];
    }
  }
}
