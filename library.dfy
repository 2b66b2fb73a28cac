/**
 * The calls the strategies make into open3d, pymeshlab and the file system.
 * None of them is modelled beyond its name: each call is an event appended to the
 * strategy's log, and the objects the libraries hand back are symbolic.
 */
module Library {
  import opened Values

  /** An open3d point cloud, named by how it was obtained. */
  datatype Cloud =
    | EmptyCloud              // `PointCloud()`
    | ReadCloud(path: string) // `o3d.io.read_point_cloud(path)`

  /** An open3d triangle mesh. */
  datatype Mesh =
    | EmptyMesh                                 // `TriangleMesh()`
    | PoissonMesh(cloud: Cloud, args: Stage)    // `TriangleMesh.create_from_point_cloud_poisson(cloud, **args)`

  /** A pymeshlab mesh. */
  datatype MeshlabMesh =
    | NewMeshlabMesh                            // `pymeshlab.Mesh()`
    | CurrentMesh(history: seq<Event>)          // `mesh_set.current_mesh()` after the calls in `history`

  datatype Event =
    // file system
    | RemoveFile(path: string)
    // open3d
    | ReadPointCloud(path: string)
    | ResetNormals(shape: Value)                       // `point_cloud.normals = Vector3dVector(np.zeros(shape))`
    | CloudCall(methodName: string, args: Stage)       // `point_cloud.<method>(**args)`
    | OwnCall(methodName: string, args: Stage)         // a strategy method reached through a stage name
    | CreatePoissonMesh(cloud: Cloud, args: Stage)
    | WriteTriangleMesh(target: Value, mesh: Mesh)
    // pymeshlab
    | LoadNewMesh(path: string)
    | LoadFilterScript(path: string)
    | ApplyFilterScript
    | ApplyFilter(name: string, args: Stage)
    | SaveCurrentMesh(target: Value)
    // a strategy registered by a user: its own `load_file`
    | UserLoadFile(path: string)
}
