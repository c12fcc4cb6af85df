/** What the tracer asks of a loaded scene, and the fixed inputs of one render. The
    scene graph, its parser and its acceleration structures are not modelled: the
    camera, the nearest-hit query, the per-object material and the successive hits
    of a shadow ray are given as functions. */
module Scenes {
  import opened Vectors
  import opened Wrappers
  import opened SceneTypes
  import opened Lights
  import opened Settings

  datatype Scene = Scene(
    camera: (real, real) -> Ray,            // `Camera::rayThrough`
    intersect: Ray -> Option<Isect>,        // `Scene::intersect`: the nearest hit, if any
    material: ObjId -> Material,            // `isect::getMaterial`
    lights: seq<Light>,                     // `Scene::getLights`, in iteration order
    ambientLights: seq<AmbientLight>,       // `Scene::getAmbientLights`
    shadowHits: Ray -> seq<Isect>)          // the hits a shadow ray meets, nearest first

  /** The interface settings, the numeric library and the `rand()` stream of one render. */
  datatype Env = Env(ui: Config, geo: Geometry, draws: Draws)
}
