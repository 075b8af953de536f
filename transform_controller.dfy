/** The controller behind the transform panel (ModelTransformController):
    it keeps a translation, an Euler rotation in degrees and a scale, and
    after every change rebuilds its transformation from the identity, hands
    it to the controlled model and notifies every registered listener once.
    Listeners are represented by identities; what a listener does with a
    notification is outside the model, so each call is recorded in the
    order it is made. */
module TransformControllers {
  import opened Wrappers
  import opened Linear
  import V3 = Vector3
  import M4 = Matrix4
  import M3 = Matrix3
  import JavaMath
  import Transformations
  import Models
  import ModelsOld

  /** A registered TransformChangeListener, by identity. */
  type ListenerId = nat

  /** One call into a listener. */
  datatype Notification =
    | TransformChanged(listener: ListenerId)
    | TransformApplied(listener: ListenerId, model: Models.Model)

  /** The state the constructor and resetTransformation start from. */
  const INITIAL_TRANSLATION := V3.Vector3f(0.0, 0.0, 0.0)
  const INITIAL_ROTATION := V3.Vector3f(0.0, 0.0, 0.0)
  const INITIAL_SCALE := V3.Vector3f(1.0, 1.0, 1.0)

  /** notifyTransformChanged: one onTransformChanged per listener, in
      registration order. */
  function ChangedAll(listeners: seq<ListenerId>): (r: seq<Notification>)
    ensures |r| == |listeners|
    ensures forall i :: 0 <= i < |r| ==> r[i] == TransformChanged(listeners[i])
  {
    if |listeners| == 0 then []
    else ChangedAll(listeners[..|listeners| - 1]) + [TransformChanged(listeners[|listeners| - 1])]
  }

  /** The for-each of applyTransformation: one onTransformApplied per
      listener, each given the same transformed model. */
  function AppliedAll(listeners: seq<ListenerId>, model: Models.Model): (r: seq<Notification>)
    ensures |r| == |listeners|
    ensures forall i :: 0 <= i < |r| ==> r[i] == TransformApplied(listeners[i], model)
  {
    if |listeners| == 0 then []
    else AppliedAll(listeners[..|listeners| - 1], model) + [TransformApplied(listeners[|listeners| - 1], model)]
  }

  /** The position of the first registration of a listener. */
  function IndexOf(listeners: seq<ListenerId>, listener: ListenerId): (i: nat)
    requires listener in listeners
    ensures i < |listeners| && listeners[i] == listener && listener !in listeners[..i]
  {
    if listeners[0] == listener then 0
    else
      var j := IndexOf(listeners[1..], listener);
      assert listeners[..j + 1] == [listeners[0]] + listeners[1..][..j];
      j + 1
  }

  /** List.remove(listener): the first occurrence goes, the rest keep their
      order; a listener that is not registered leaves the list as it was. */
  function RemoveFirst(listeners: seq<ListenerId>, listener: ListenerId): (r: seq<ListenerId>)
    ensures listener !in listeners ==> r == listeners
    ensures listener in listeners ==>
              r == listeners[..IndexOf(listeners, listener)] + listeners[IndexOf(listeners, listener) + 1..]
  {
    if |listeners| == 0 then []
    else if listeners[0] == listener then listeners[1..]
    else
      var rest := RemoveFirst(listeners[1..], listener);
      assert listener in listeners ==> IndexOf(listeners, listener) == IndexOf(listeners[1..], listener) + 1;
      [listeners[0]] + rest
  }

  /** Adding a listener and removing it again leaves the list as it was
      when the listener was not registered before. */
  lemma AddThenRemove(listeners: seq<ListenerId>, listener: ListenerId)
    requires listener !in listeners
    ensures RemoveFirst(listeners + [listener], listener) == listeners
  {
    assert IndexOf(listeners + [listener], listener) == |listeners|;
  }

  /** With the trigonometry of 0° exact (cos 0 = 1, sin 0 = 0), the rebuild
      of the initial vectors is the identity, which is what the constructor
      and resetTransformation store directly. */
  lemma {:induction false} RebuiltAtRest()
    requires JavaMath.Cos(JavaMath.ToRadians(0.0)) == 1.0 && JavaMath.Sin(JavaMath.ToRadians(0.0)) == 0.0
    ensures Models.Rebuilt(INITIAL_SCALE, INITIAL_ROTATION, INITIAL_TRANSLATION) == M4.Identity()
  {
    M4.IdentityLiteral();
    var i := M4.Identity();
    assert M4.Scaling(1.0, 1.0, 1.0) == i;
    assert M4.RotationX(0.0) == i;
    assert M4.RotationY(0.0) == i;
    assert M4.RotationZ(0.0) == i;
    assert M4.Translation(0.0, 0.0, 0.0) == i;
    M4.IdentityNeutral(i);
  }

  class ModelTransformController {
    var model: ModelsOld.ModelOld?
    var current: Transformations.Transformation
    var listeners: seq<ListenerId>
    var translation: V3.Vector3f
    var rotation: V3.Vector3f
    var scale: V3.Vector3f
    /** Every listener call made so far, oldest first. */
    var notifications: seq<Notification>

    /** The controlled model holds the controller's matrix (in the code the
        two share one Transformation object). */
    predicate Linked()
      reads this, current, (if model == null then {} else {model})`transformation
    {
      model != null ==> model.transformation == current.matrix
    }

    /** The matrix is the rebuild of the three vectors, whatever calls led
        to them, and the model holds it. */
    predicate Synced()
      reads this, current, (if model == null then {} else {model})`transformation
    {
      current.matrix == Models.Rebuilt(scale, rotation, translation) && Linked()
    }

    /** new ModelTransformController(): no model, no listeners, translation
        and rotation zero, scale one and the identity matrix. */
    constructor()
      ensures fresh(current) && current.matrix == M4.Identity()
      ensures model == null && listeners == [] && notifications == []
      ensures translation == INITIAL_TRANSLATION && rotation == INITIAL_ROTATION && scale == INITIAL_SCALE
    {
      current := new Transformations.Transformation();
      model := null;
      listeners, notifications := [], [];
      translation, rotation, scale := INITIAL_TRANSLATION, INITIAL_ROTATION, INITIAL_SCALE;
    }

    /** new ModelTransformController(model): the default state, then
        setModel(model); with no listener registered yet nobody is told. */
    constructor WithModel(model: ModelsOld.ModelOld?)
      ensures this.model == model && listeners == [] && notifications == []
      ensures translation == INITIAL_TRANSLATION && rotation == INITIAL_ROTATION && scale == INITIAL_SCALE
      ensures model != null ==> current.matrix == model.transformation
      ensures model == null ==> current.matrix == M4.Identity()
      ensures Linked()
    {
      var t := new Transformations.Transformation();
      current := t;
      this.model := null;
      listeners, notifications := [], [];
      translation, rotation, scale := INITIAL_TRANSLATION, INITIAL_ROTATION, INITIAL_SCALE;
      new;
      SetModel(model);
    }

    /** setModel: the model is stored; a non-null model's matrix becomes the
        controller's and the listeners are told once. The three vectors are
        kept, so until the next change the matrix need not be their
        rebuild. setModel(null) only forgets the model. */
    method SetModel(model: ModelsOld.ModelOld?)
      modifies this`model, this`notifications, current
      ensures this.model == model && Linked()
      ensures model != null ==> current.matrix == model.transformation
                                && notifications == old(notifications) + ChangedAll(listeners)
      ensures model == null ==> current.matrix == old(current.matrix) && notifications == old(notifications)
    {
      this.model := model;
      if model != null {
        current.matrix := model.transformation;
        NotifyTransformChanged();
      }
    }

    /** notifyTransformChanged: the loop over the listeners. */
    method NotifyTransformChanged()
      modifies this`notifications
      ensures notifications == old(notifications) + ChangedAll(listeners)
    {
      var i := 0;
      while i < |listeners|
        invariant 0 <= i <= |listeners|
        invariant notifications == old(notifications) + ChangedAll(listeners[..i])
      {
        assert listeners[..i + 1][..i] == listeners[..i];
        notifications := notifications + [TransformChanged(listeners[i])];
        i := i + 1;
      }
      assert listeners[..i] == listeners;
    }

    /** updateTransformation: reset, applyScaling, applyRotationX, Y and Z,
        then applyTranslation; the model is given the result and the
        listeners are told once. */
    method UpdateTransformation()
      modifies this`notifications, current, (if model == null then {} else {model})`transformation
      ensures Synced()
      ensures notifications == old(notifications) + ChangedAll(listeners)
      ensures model != null ==> model.vertices == old(model.vertices) && model.name == old(model.name)
                                && model.textureVertices == old(model.textureVertices)
                                && model.normals == old(model.normals) && model.polygons == old(model.polygons)
    {
      current.Reset();
      current.ApplyScaling(scale.x, scale.y, scale.z);
      current.ApplyRotationX(rotation.x);
      current.ApplyRotationY(rotation.y);
      current.ApplyRotationZ(rotation.z);
      current.ApplyTranslation(translation.x, translation.y, translation.z);
      if model != null {
        model.transformation := current.matrix;
      }
      NotifyTransformChanged();
    }

    /** translate(dx, dy, dz): the delta is added to the translation. */
    method Translate(dx: real, dy: real, dz: real)
      modifies this`translation, this`notifications, current, (if model == null then {} else {model})`transformation
      ensures translation == V3.Add(old(translation), V3.Vector3f(dx, dy, dz))
      ensures rotation == old(rotation) && scale == old(scale)
      ensures Synced() && notifications == old(notifications) + ChangedAll(listeners)
    {
      translation := V3.Add(translation, V3.Vector3f(dx, dy, dz));
      UpdateTransformation();
    }

    /** setTranslation(x, y, z): the translation is replaced. */
    method SetTranslation(x: real, y: real, z: real)
      modifies this`translation, this`notifications, current, (if model == null then {} else {model})`transformation
      ensures translation == V3.Vector3f(x, y, z)
      ensures rotation == old(rotation) && scale == old(scale)
      ensures Synced() && notifications == old(notifications) + ChangedAll(listeners)
    {
      translation := V3.Vector3f(x, y, z);
      UpdateTransformation();
    }

    /** rotateX/Y/Z(angle): the angle is added to that component only. */
    method RotateX(angleDegrees: real)
      modifies this`rotation, this`notifications, current, (if model == null then {} else {model})`transformation
      ensures rotation == old(rotation).(x := old(rotation).x + angleDegrees)
      ensures translation == old(translation) && scale == old(scale)
      ensures Synced() && notifications == old(notifications) + ChangedAll(listeners)
    {
      rotation := V3.Vector3f(rotation.x + angleDegrees, rotation.y, rotation.z);
      UpdateTransformation();
    }

    method RotateY(angleDegrees: real)
      modifies this`rotation, this`notifications, current, (if model == null then {} else {model})`transformation
      ensures rotation == old(rotation).(y := old(rotation).y + angleDegrees)
      ensures translation == old(translation) && scale == old(scale)
      ensures Synced() && notifications == old(notifications) + ChangedAll(listeners)
    {
      rotation := V3.Vector3f(rotation.x, rotation.y + angleDegrees, rotation.z);
      UpdateTransformation();
    }

    method RotateZ(angleDegrees: real)
      modifies this`rotation, this`notifications, current, (if model == null then {} else {model})`transformation
      ensures rotation == old(rotation).(z := old(rotation).z + angleDegrees)
      ensures translation == old(translation) && scale == old(scale)
      ensures Synced() && notifications == old(notifications) + ChangedAll(listeners)
    {
      rotation := V3.Vector3f(rotation.x, rotation.y, rotation.z + angleDegrees);
      UpdateTransformation();
    }

    /** setRotation(x, y, z): the rotation is replaced. */
    method SetRotation(x: real, y: real, z: real)
      modifies this`rotation, this`notifications, current, (if model == null then {} else {model})`transformation
      ensures rotation == V3.Vector3f(x, y, z)
      ensures translation == old(translation) && scale == old(scale)
      ensures Synced() && notifications == old(notifications) + ChangedAll(listeners)
    {
      rotation := V3.Vector3f(x, y, z);
      UpdateTransformation();
    }

    /** scale(sx, sy, sz): the scale is multiplied component-wise. */
    method Scale(sx: real, sy: real, sz: real)
      modifies this`scale, this`notifications, current, (if model == null then {} else {model})`transformation
      ensures scale == V3.Vector3f(old(scale).x * sx, old(scale).y * sy, old(scale).z * sz)
      ensures translation == old(translation) && rotation == old(rotation)
      ensures Synced() && notifications == old(notifications) + ChangedAll(listeners)
    {
      scale := V3.Vector3f(scale.x * sx, scale.y * sy, scale.z * sz);
      UpdateTransformation();
    }

    /** setScale(sx, sy, sz): the scale is replaced. */
    method SetScale(sx: real, sy: real, sz: real)
      modifies this`scale, this`notifications, current, (if model == null then {} else {model})`transformation
      ensures scale == V3.Vector3f(sx, sy, sz)
      ensures translation == old(translation) && rotation == old(rotation)
      ensures Synced() && notifications == old(notifications) + ChangedAll(listeners)
    {
      scale := V3.Vector3f(sx, sy, sz);
      UpdateTransformation();
    }

    /** scaleUniform(f): scale(f, f, f), so every component is multiplied by
        the same factor and the listeners are told once. */
    method ScaleUniform(factor: real)
      modifies this`scale, this`notifications, current, (if model == null then {} else {model})`transformation
      ensures scale == V3.Multiply(old(scale), factor)
      ensures translation == old(translation) && rotation == old(rotation)
      ensures Synced() && notifications == old(notifications) + ChangedAll(listeners)
    {
      Scale(factor, factor, factor);
    }

    /** resetTransformation: the initial vectors and the identity matrix,
        given to the model; the listeners are told once. */
    method ResetTransformation()
      modifies this`translation, this`rotation, this`scale, this`notifications, current, (if model == null then {} else {model})`transformation
      ensures translation == INITIAL_TRANSLATION && rotation == INITIAL_ROTATION && scale == INITIAL_SCALE
      ensures current.matrix == M4.Identity() && Linked()
      ensures notifications == old(notifications) + ChangedAll(listeners)
      ensures model != null ==> model.vertices == old(model.vertices) && model.name == old(model.name)
                                && model.textureVertices == old(model.textureVertices)
                                && model.normals == old(model.normals) && model.polygons == old(model.polygons)
    {
      translation, rotation, scale := INITIAL_TRANSLATION, INITIAL_ROTATION, INITIAL_SCALE;
      current.Reset();
      if model != null {
        model.transformation := current.matrix;
      }
      NotifyTransformChanged();
    }

    /** applyTransformation: with a model, a transformed copy is built
        (applyTransformation(true) of the model), every listener is handed
        it, and the transform is reset. A copy that throws ends the call
        before any listener hears of it; without a model nothing happens. */
    method ApplyTransformation() returns (r: Result<Option<Models.Model>, string>)
      modifies this`translation, this`rotation, this`scale, this`notifications, current, (if model == null then {} else {model})`transformation
      ensures model == null ==> r == Ok(None)
      ensures model != null ==> r.Err? || r.value.Some?
      ensures r.Err? || r == Ok(None) ==>
                translation == old(translation) && rotation == old(rotation) && scale == old(scale)
                && notifications == old(notifications) && current.matrix == old(current.matrix)
      ensures model != null ==>
                (r.Err? <==> (model.textureVertices.None? || model.normals.None?
                              || (model.normals.value != [] && M3.NormalMatrix(old(model.transformation)).Err?)))
      ensures r.Ok? && r.value.Some? ==>
                fresh(r.value.value)
                && r.value.value.vertices == Models.TransformAll(old(model.transformation), old(model.vertices))
                && r.value.value.name == model.name + " (transformed)"
                && r.value.value.textureVertices == model.textureVertices
                && r.value.value.polygons == model.polygons
                && r.value.value.normals == Some(if model.normals.value == [] then []
                                                 else ModelsOld.NormalsThrough(M3.NormalMatrix(old(model.transformation)).value, model.normals.value))
                && model.vertices == old(model.vertices) && model.transformation == M4.Identity()
                && translation == INITIAL_TRANSLATION && rotation == INITIAL_ROTATION && scale == INITIAL_SCALE
                && current.matrix == M4.Identity() && Linked()
                && notifications == old(notifications) + AppliedAll(listeners, r.value.value) + ChangedAll(listeners)
    {
      if model == null {
        return Ok(None);
      }
      var transformed := model.ApplyTransformation(true);
      if transformed.Err? {
        return Err(transformed.error);
      }
      var t := transformed.value;
      NotifyTransformApplied(t);
      ResetTransformation();
      r := Ok(Some(t));
    }

    /** The for-each of applyTransformation over the listeners. */
    method NotifyTransformApplied(t: Models.Model)
      modifies this`notifications
      ensures notifications == old(notifications) + AppliedAll(listeners, t)
    {
      var i := 0;
      while i < |listeners|
        invariant 0 <= i <= |listeners|
        invariant notifications == old(notifications) + AppliedAll(listeners[..i], t)
      {
        assert listeners[..i + 1][..i] == listeners[..i];
        notifications := notifications + [TransformApplied(listeners[i], t)];
        i := i + 1;
      }
      assert listeners[..i] == listeners;
    }

    /** getTransformedModel(apply): null without a model, otherwise the
        model's applyTransformation(apply); the controller is not changed. */
    method GetTransformedModel(applyTransformations: bool) returns (r: Result<Option<Models.Model>, string>)
      ensures model == null ==> r == Ok(None)
      ensures model != null ==>
                (r.Err? <==> model.textureVertices.None? || model.normals.None?
                             || (model.normals.value != [] && M3.NormalMatrix(model.transformation).Err?))
      ensures model != null && r.Ok? ==>
                r.value.Some? && fresh(r.value.value)
                && r.value.value.vertices == Models.TransformAll(model.transformation, model.vertices)
                && r.value.value.name == model.name + " (transformed)"
                && r.value.value.textureVertices == model.textureVertices
                && r.value.value.polygons == model.polygons
                && r.value.value.normals == Some(if model.normals.value == [] then []
                                                 else ModelsOld.NormalsThrough(M3.NormalMatrix(model.transformation).value, model.normals.value))
    {
      if model == null {
        return Ok(None);
      }
      var transformed := model.ApplyTransformation(applyTransformations);
      if transformed.Err? {
        return Err(transformed.error);
      }
      r := Ok(Some(transformed.value));
    }

    /** addTransformChangeListener: appended at the end. */
    method AddTransformChangeListener(listener: ListenerId)
      modifies this`listeners
      ensures listeners == old(listeners) + [listener]
    {
      listeners := listeners + [listener];
    }

    /** removeTransformChangeListener: its first registration goes. */
    method RemoveTransformChangeListener(listener: ListenerId)
      modifies this`listeners
      ensures listeners == RemoveFirst(old(listeners), listener)
    {
      listeners := RemoveFirst(listeners, listener);
    }
  }
}
