/** OpenGL enumerations shared by the batching layer and the vector-export hook. */
module GlTypes {

  /** The primitive kinds a draw call or a builder can be asked for (GL_POINTS, GL_LINES, ...). */
  datatype Primitive =
    | Points
    | Lines
    | LineLoop
    | LineStrip
    | Triangles
    | TriangleStrip
    | TriangleFan
    | Quads

  /** The semantic vertex attributes whose locations the shader state hands out (GlState::ATTR_*). */
  datatype Attr = Vertex | Normal | Color | TexCoord0 | TexCoord1

  /** Which shader configuration a draw call selects before it draws. */
  datatype ShaderMode =
    | ModeColor
    | ModeColorTexture
    | ModeRenderText(x: real, y: real, z: real)

  /** An optional value: an object that may not exist yet or a state that may be unset. */
  datatype Option<T> = None | Some(value: T)
}
